// Paying with coins: scan, change and bank (src/game/game.cpp:2271-2399).
module Gold {
  import opened Arithmetic

  datatype Kind = Gold | Platinum | Crystal | NoCoin

  const U8: nat := 0x100
  const U16: nat := 0x1_0000
  const U32: nat := 0x1_0000_0000
  const U64: nat := 0x1_0000_0000_0000_0000

  /** What one piece is worth. */
  function Unit(kind: Kind): nat {
    match kind
    case Gold => 1
    case Platinum => 100
    case Crystal => 10000
    case NoCoin => 0
  }

  /** Item::getWorth */
  function WorthOf(kind: Kind, count: nat): nat {
    match kind
    case Gold => count
    case Platinum => count * 100
    case Crystal => count * 10000
    case NoCoin => 0
  }

  class Item {
    const kind: Kind
    var count: nat

    constructor (kind: Kind, count: nat)
      ensures this.kind == kind && this.count == count
    {
      this.kind, this.count := kind, count;
    }

    function Worth(): nat
      reads this
    {
      WorthOf(kind, count)
    }
  }

  /** How many pieces each item has, at one moment. */
  type Counts = map<Item, nat>

  ghost predicate Holds(c: Counts)
    reads c.Keys
  {
    forall x <- c :: x.count == c[x]
  }

  ghost function Worth(x: Item, c: Counts): nat {
    if x in c then WorthOf(x.kind, c[x]) else 0
  }

  datatype Thing = Plain(item: Item) | Container(items: seq<Thing>)

  /** The items outside and inside the containers, each container opened where it lies. */
  function Leaves(things: seq<Thing>): seq<Item> {
    if things == [] then [] else
    (match things[0]
     case Plain(item) => [item]
     case Container(items) => Leaves(items)) + Leaves(things[1..])
  }

  ghost function Total(items: seq<Item>, c: Counts): nat {
    if items == [] then 0 else Worth(items[0], c) + Total(items[1..], c)
  }

  function Size(things: seq<Thing>): nat {
    if things == [] then 0 else
    (match things[0]
     case Plain(_) => 1
     case Container(items) => 1 + Size(items)) + Size(things[1..])
  }

  // --------------------------------------------------------------------
  // Sums and bags of items
  // --------------------------------------------------------------------

  /** What all the coins in the slots are worth, at any depth. */
  ghost function OnHand(slots: seq<Thing>, c: Counts): nat {
    Total(Leaves(slots), c)
  }

  lemma {:induction false} TotalConcat(a: seq<Item>, b: seq<Item>, c: Counts)
    ensures Total(a + b, c) == Total(a, c) + Total(b, c)
  {
    if a == [] {
      assert a + b == b;
    } else {
      TotalConcat(a[1..], b, c);
      assert (a + b)[1..] == a[1..] + b;
    }
  }

  lemma TotalSplit(a: seq<Item>, i: nat, c: Counts)
    requires i < |a|
    ensures Total(a, c) == Total(a[..i], c) + Worth(a[i], c) + Total(a[i + 1..], c)
  {
    assert a == a[..i] + ([a[i]] + a[i + 1..]);
    TotalConcat(a[..i], [a[i]] + a[i + 1..], c);
  }

  /** The total depends only on the counts of its items. */
  lemma {:induction false} SameTotal(a: seq<Item>, c: Counts, d: Counts)
    requires forall i :: 0 <= i < |a| ==> Worth(a[i], c) == Worth(a[i], d)
    ensures Total(a, c) == Total(a, d)
  {
    if a != [] {
      SameTotal(a[1..], c, d);
    }
  }

  lemma {:induction false} NoWorth(a: seq<Item>, c: Counts)
    requires forall i :: 0 <= i < |a| ==> Worth(a[i], c) == 0
    ensures Total(a, c) == 0
  {
    if a != [] {
      NoWorth(a[1..], c);
    }
  }

  lemma TotalWithout(a: seq<Item>, i: nat, c: Counts)
    requires i < |a|
    ensures Total(a, c) == Worth(a[i], c) + Total(a[..i] + a[i + 1..], c)
  {
    TotalSplit(a, i, c);
    TotalConcat(a[..i], a[i + 1..], c);
  }

  lemma BagSplit(a: seq<Item>, i: nat)
    requires i < |a|
    ensures multiset(a[..i] + a[i + 1..]) == multiset(a) - multiset{a[i]}
  {
    assert a == a[..i] + [a[i]] + a[i + 1..];
  }

  lemma Matching(a: seq<Item>, b: seq<Item>) returns (i: nat)
    requires multiset(a) == multiset(b) && a != []
    ensures i < |b| && b[i] == a[0] && multiset(a[1..]) == multiset(b[..i] + b[i + 1..])
  {
    i := IndexOf(b, a[0]);
    BagRest(a);
    BagSplit(b, i);
  }

  lemma IndexOf(b: seq<Item>, x: Item) returns (i: nat)
    requires x in multiset(b)
    ensures i < |b| && b[i] == x
  {
    i :| 0 <= i < |b| && b[i] == x;
  }

  lemma BagRest(a: seq<Item>)
    requires a != []
    ensures multiset(a[1..]) == multiset(a) - multiset{a[0]} && a[0] in multiset(a)
  {
    assert a == [a[0]] + a[1..];
    assert multiset(a) == multiset([a[0]]) + multiset(a[1..]);
    assert a[0] in multiset([a[0]]);
  }

  /** The total does not depend on the order of the items. */
  lemma {:induction false} TotalOfBag(a: seq<Item>, b: seq<Item>, c: Counts)
    requires multiset(a) == multiset(b)
    ensures Total(a, c) == Total(b, c)
    decreases |a|
  {
    if a != [] {
      hide Worth;
      var i := Matching(a, b);
      TotalOfBag(a[1..], b[..i] + b[i + 1..], c);
      TotalWithout(b, i, c);
    } else {
      assert |multiset(b)| == |b|;
    }
  }

  // --------------------------------------------------------------------
  // The scan
  // --------------------------------------------------------------------

  ghost predicate InOrder(coins: seq<Item>, i: nat, j: nat, c: Counts)
    requires i < j < |coins|
  {
    Worth(coins[i], c) <= Worth(coins[j], c)
  }

  /** The multimap from worth to item: its items, the cheapest first. */
  ghost predicate Sorted(coins: seq<Item>, c: Counts) {
    forall i, j {:trigger InOrder(coins, i, j, c)} :: 0 <= i < j < |coins| ==> InOrder(coins, i, j, c)
  }

  /** No coin is worth less than its neighbour in front. */
  lemma SortedNeighbours(coins: seq<Item>, c: Counts)
    ensures Sorted(coins, c) <==> forall i :: 0 < i < |coins| ==> Worth(coins[i - 1], c) <= Worth(coins[i], c)
  {
    hide Worth;
    if Sorted(coins, c) {
      forall i | 0 < i < |coins| ensures Worth(coins[i - 1], c) <= Worth(coins[i], c) {
        assert InOrder(coins, i - 1, i, c);
      }
    } else {
      var i, j :| 0 <= i < j < |coins| && !InOrder(coins, i, j, c);
      Descent(coins, i, j, c);
    }
  }

  lemma {:induction false} Descent(coins: seq<Item>, i: nat, j: nat, c: Counts)
    requires i < j < |coins| && Worth(coins[i], c) > Worth(coins[j], c)
    ensures exists k :: 0 < k < |coins| && Worth(coins[k - 1], c) > Worth(coins[k], c)
    decreases j
  {
    if Worth(coins[j - 1], c) <= Worth(coins[j], c) {
      Descent(coins, i, j - 1, c);
    }
  }

  /** The bag of the leaves, which is all that matters for sums. */
  function Bag(things: seq<Thing>): multiset<Item> {
    if things == [] then multiset{} else
    (match things[0]
     case Plain(item) => multiset{item}
     case Container(items) => Bag(items)) + Bag(things[1..])
  }

  lemma {:induction false} BagOfLeaves(things: seq<Thing>)
    ensures multiset(Leaves(things)) == Bag(things)
  {
    if things != [] {
      BagOfLeaves(things[1..]);
      match things[0] {
        case Plain(item) =>
        case Container(items) => BagOfLeaves(items);
      }
    }
  }

  function BagAll(containers: seq<seq<Thing>>): multiset<Item> {
    if containers == [] then multiset{} else Bag(containers[0]) + BagAll(containers[1..])
  }

  function SizeAll(containers: seq<seq<Thing>>): nat {
    if containers == [] then 0 else 1 + Size(containers[0]) + SizeAll(containers[1..])
  }

  lemma {:induction false} Pushed(a: seq<seq<Thing>>, c: seq<Thing>)
    ensures BagAll(a + [c]) == BagAll(a) + Bag(c)
    ensures SizeAll(a + [c]) == SizeAll(a) + 1 + Size(c)
  {
    if a != [] {
      Pushed(a[1..], c);
      assert (a + [c])[1..] == a[1..] + [c];
    }
  }

  lemma {:induction false} AllConcat(a: seq<seq<Thing>>, b: seq<seq<Thing>>)
    ensures BagAll(a + b) == BagAll(a) + BagAll(b) && SizeAll(a + b) == SizeAll(a) + SizeAll(b)
    decreases b
  {
    if b == [] {
      assert a + b == a;
    } else {
      assert a + b == a + [b[0]] + b[1..];
      AllConcat(a + [b[0]], b[1..]);
      Pushed(a, b[0]);
    }
  }

  lemma Inserted(coins: seq<Item>, k: nat, item: Item, c: Counts)
    requires Sorted(coins, c) && k <= |coins|
    requires k > 0 ==> Worth(coins[k - 1], c) <= Worth(item, c)
    requires k < |coins| ==> Worth(coins[k], c) >= Worth(item, c)
    ensures Sorted(coins[..k] + [item] + coins[k..], c)
  {
    var r := coins[..k] + [item] + coins[k..];
    forall i, j | 0 <= i < j < |r| ensures InOrder(r, i, j, c) {
      var a, b := if i < k then i else i - 1, if j < k then j else j - 1;
      if i == k {
        assert r[j] == coins[b] && (k < b ==> InOrder(coins, k, b, c));
      } else if j == k {
        assert r[i] == coins[a] && (a < k - 1 ==> InOrder(coins, a, k - 1, c));
      } else {
        assert r[i] == coins[a] && r[j] == coins[b] && InOrder(coins, a, b, c);
      }
    }
  }

  lemma InsertedTotal(coins: seq<Item>, k: nat, item: Item, c: Counts)
    requires k <= |coins|
    ensures var r := coins[..k] + [item] + coins[k..];
      multiset(r) == multiset(coins) + multiset{item} && Total(r, c) == Total(coins, c) + Worth(item, c)
  {
    TotalConcat(coins[..k], coins[k..], c);
    TotalConcat(coins[..k] + [item], coins[k..], c);
    TotalConcat(coins[..k], [item], c);
    assert coins == coins[..k] + coins[k..];
  }

  /** multimap::emplace: behind the entries of equal worth. */
  method Emplace(coins: seq<Item>, item: Item, ghost c: Counts) returns (r: seq<Item>, ghost k: nat)
    requires Holds(c) && Sorted(coins, c) && item in c && forall i :: 0 <= i < |coins| ==> coins[i] in c
    ensures Sorted(r, c) && k <= |coins| && r == coins[..k] + [item] + coins[k..]
    ensures k < |coins| ==> Worth(coins[k], c) > Worth(item, c)
  {
    var at := |coins|;
    while at > 0 && coins[at - 1].Worth() > item.Worth()
      invariant 0 <= at <= |coins|
      invariant at < |coins| ==> Worth(coins[at], c) > Worth(item, c)
    {
      at := at - 1;
    }
    Inserted(coins, at, item, c);
    r, k := coins[..at] + [item] + coins[at..], at;
  }

  /** What the scan has found so far: the coins, the rest, and what is still pending. */
  ghost predicate Found(coins: seq<Item>, moneyCount: nat, rest: seq<Item>, pending: multiset<Item>,
                        all: multiset<Item>, c: Counts)
  {
    Sorted(coins, c) && moneyCount == Total(coins, c) &&
    (forall i :: 0 <= i < |coins| ==> Worth(coins[i], c) > 0) &&
    (forall i :: 0 <= i < |rest| ==> Worth(rest[i], c) == 0) &&
    multiset(coins) + multiset(rest) + pending == all
  }

  lemma FoundCoin(coins: seq<Item>, moneyCount: nat, rest: seq<Item>, pending: multiset<Item>, all: multiset<Item>,
                  c: Counts, item: Item, k: nat, more: seq<Item>)
    requires Found(coins, moneyCount, rest, multiset{item} + pending, all, c) && Worth(item, c) > 0
    requires k <= |coins| && more == coins[..k] + [item] + coins[k..] && Sorted(more, c)
    ensures Found(more, moneyCount + Worth(item, c), rest, pending, all, c)
  {
    hide Sorted, Worth;
    InsertedTotal(coins, k, item, c);
    assert multiset(more) + multiset(rest) + pending == multiset(coins) + multiset(rest) + (multiset{item} + pending);
  }

  lemma FoundOther(coins: seq<Item>, moneyCount: nat, rest: seq<Item>, pending: multiset<Item>, all: multiset<Item>,
                   c: Counts, item: Item)
    requires Found(coins, moneyCount, rest, multiset{item} + pending, all, c) && Worth(item, c) == 0
    ensures Found(coins, moneyCount, rest + [item], pending, all, c)
  {
    hide Sorted, Worth;
    assert multiset(coins) + multiset(rest + [item]) + pending ==
      multiset(coins) + multiset(rest) + (multiset{item} + pending);
  }

  lemma FoundAll(coins: seq<Item>, moneyCount: nat, rest: seq<Item>, pending: multiset<Item>, all: multiset<Item>,
                 c: Counts)
    requires Found(coins, moneyCount, rest, pending, all, c)
    ensures Sorted(coins, c) && pending <= all && forall i :: 0 <= i < |coins| ==> coins[i] in all
  {
    hide Sorted, Worth;
    forall i | 0 <= i < |coins| ensures coins[i] in all {
      assert coins[i] in multiset(coins);
    }
  }

  /** One plain item of the scan. */
  method Visit(item: Item, coins: seq<Item>, moneyCount: nat, ghost rest: seq<Item>, ghost pending: multiset<Item>,
               ghost all: multiset<Item>, ghost c: Counts)
      returns (coins': seq<Item>, moneyCount': nat, ghost rest': seq<Item>)
    requires Holds(c) && forall x <- all :: x in c
    requires Found(coins, moneyCount, rest, multiset{item} + pending, all, c)
    ensures Found(coins', moneyCount', rest', pending, all, c)
  {
    hide Found, Sorted;
    FoundAll(coins, moneyCount, rest, multiset{item} + pending, all, c);
    assert item in multiset{item} + pending && item in all;
    var worth := item.Worth();
    assert worth == Worth(item, c);
    coins', moneyCount', rest' := coins, moneyCount, rest;
    if worth != 0 {
      moneyCount' := moneyCount + worth;
      ghost var k;
      coins', k := Emplace(coins, item, c);
      FoundCoin(coins, moneyCount, rest, pending, all, c, item, k, coins');
    } else {
      rest' := rest + [item];
      FoundOther(coins, moneyCount, rest, pending, all, c, item);
    }
  }

  lemma NextOne<T>(s: seq<T>, i: nat)
    requires i < |s|
    ensures s[i..][0] == s[i] && s[i..][1..] == s[i + 1..]
  {
  }

  /** The loop over the items of one container, or over the slots of the cylinder. */
  method ScanItems(items: seq<Thing>, coins: seq<Item>, moneyCount: nat, ghost rest: seq<Item>,
                   ghost pending: multiset<Item>, ghost all: multiset<Item>, ghost c: Counts)
      returns (pushed: seq<seq<Thing>>, coins': seq<Item>, moneyCount': nat, ghost rest': seq<Item>)
    requires Holds(c) && forall x <- all :: x in c
    requires Found(coins, moneyCount, rest, pending + Bag(items), all, c)
    ensures SizeAll(pushed) <= Size(items)
    ensures Found(coins', moneyCount', rest', pending + BagAll(pushed), all, c)
  {
    hide Found, Bag, BagAll, Size, SizeAll;
    pushed, coins', moneyCount', rest' := [], coins, moneyCount, rest;
    NothingPending();
    assert pending + BagAll([]) + Bag(items) == pending + Bag(items);
    ghost var left := items;
    for i := 0 to |items|
      invariant i + |left| == |items| && left == items[i..]
      invariant SizeAll(pushed) + Size(left) <= Size(items)
      invariant Found(coins', moneyCount', rest', pending + BagAll(pushed) + Bag(left), all, c)
    {
      NextOne(items, i);
      match items[i] {
        case Container(inner) =>
          PushStep(inner, left, pushed, pending);
          pushed := pushed + [inner];
        case Plain(item) =>
          PlainStep(item, left, pending + BagAll(pushed));
          coins', moneyCount', rest' :=
            Visit(item, coins', moneyCount', rest', pending + BagAll(pushed) + Bag(left[1..]), all, c);
      }
      left := left[1..];
    }
    assert left == [];
    assert pending + BagAll(pushed) + Bag([]) == pending + BagAll(pushed);
  }

  lemma NothingPending()
    ensures Bag([]) == multiset{} && BagAll([]) == multiset{} && Size([]) == 0 && SizeAll([]) == 0
  {
  }

  lemma PushStep(inner: seq<Thing>, left: seq<Thing>, pushed: seq<seq<Thing>>, pending: multiset<Item>)
    requires left != [] && left[0] == Container(inner)
    ensures pending + BagAll(pushed) + Bag(left) == pending + BagAll(pushed + [inner]) + Bag(left[1..])
    ensures SizeAll(pushed) + Size(left) == SizeAll(pushed + [inner]) + Size(left[1..])
  {
    Pushed(pushed, inner);
  }

  lemma PlainStep(item: Item, left: seq<Thing>, pending: multiset<Item>)
    requires left != [] && left[0] == Plain(item)
    ensures pending + Bag(left) == multiset{item} + (pending + Bag(left[1..]))
    ensures Size(left) == 1 + Size(left[1..])
  {
  }

  lemma NothingFound(slots: seq<Thing>, c: Counts)
    ensures Found([], 0, [], multiset{} + Bag(slots), Bag(slots), c)
  {
  }

  lemma FirstContainer(left: seq<seq<Thing>>)
    requires left != []
    ensures BagAll(left) == BagAll(left[1..]) + Bag(left[0])
    ensures SizeAll(left) == 1 + Size(left[0]) + SizeAll(left[1..])
  {
  }

  /** Every item in reach is found exactly once, however deep it lies. */
  method Scan(slots: seq<Thing>, ghost c: Counts) returns (coins: seq<Item>, moneyCount: nat, ghost rest: seq<Item>)
    requires Holds(c) && forall x <- Bag(slots) :: x in c
    ensures Found(coins, moneyCount, rest, multiset{}, Bag(slots), c)
    ensures moneyCount == OnHand(slots, c)
  {
    hide Found, Bag, BagAll, Size, SizeAll;
    ghost var all := Bag(slots);
    NothingFound(slots, c);
    var containers: seq<seq<Thing>>;
    containers, coins, moneyCount, rest := ScanItems(slots, [], 0, [], multiset{}, all, c);
    assert multiset{} + BagAll(containers) == BagAll(containers);
    var i := 0;
    ghost var left := containers;
    while i < |containers|
      invariant 0 <= i <= |containers| && left == containers[i..]
      invariant Found(coins, moneyCount, rest, BagAll(left), all, c)
      decreases SizeAll(left)
    {
      var container := containers[i];
      ghost var later := left[1..];
      assert left[0] == container;
      var pushed;
      FirstContainer(left);
      pushed, coins, moneyCount, rest := ScanItems(container, coins, moneyCount, rest, BagAll(later), all, c);
      AllConcat(later, pushed);
      left := later + pushed;
      containers := containers + pushed;
      i := i + 1;
    }
    assert left == [];
    NothingPending();
    FoundOnHand(slots, coins, moneyCount, rest, c);
  }

  lemma FoundOnHand(slots: seq<Thing>, coins: seq<Item>, moneyCount: nat, rest: seq<Item>, c: Counts)
    requires Found(coins, moneyCount, rest, multiset{}, Bag(slots), c)
    ensures moneyCount == OnHand(slots, c)
  {
    hide Sorted, Worth, Bag, OnHand;
    assert multiset(coins) + multiset(rest) + multiset{} == multiset(coins) + multiset(rest);
    SameTotals(slots, coins, rest, c);
  }

  // --------------------------------------------------------------------
  // Handing coins out
  // --------------------------------------------------------------------

  datatype Coins = Coins(kind: Kind, count: nat)

  function Sum(stacks: seq<Coins>): nat {
    if stacks == [] then 0 else WorthOf(stacks[0].kind, stacks[0].count) + Sum(stacks[1..])
  }

  /** Every stack holds between one coin and a hundred. */
  predicate Regular(stacks: seq<Coins>) {
    forall i :: 0 <= i < |stacks| ==> 1 <= stacks[i].count <= 100
  }

  lemma {:induction false} SumPushed(stacks: seq<Coins>, c: Coins)
    ensures Sum(stacks + [c]) == Sum(stacks) + WorthOf(c.kind, c.count)
  {
    if stacks != [] {
      SumPushed(stacks[1..], c);
      assert (stacks + [c])[1..] == stacks[1..] + [c];
    }
  }

  function PiecesOf(stacks: seq<Coins>, kind: Kind): nat {
    if stacks == [] then 0 else (if stacks[0].kind == kind then stacks[0].count else 0) + PiecesOf(stacks[1..], kind)
  }

  lemma {:induction false} PiecesPushed(stacks: seq<Coins>, c: Coins, kind: Kind)
    ensures PiecesOf(stacks + [c], kind) == PiecesOf(stacks, kind) + if c.kind == kind then c.count else 0
  {
    if stacks != [] {
      PiecesPushed(stacks[1..], c, kind);
      assert (stacks + [c])[1..] == stacks[1..] + [c];
    }
  }

  /** Item::CreateItem with a 16-bit count: 0 means 1, and the item keeps the low 8 bits. */
  function Created(count: nat): nat {
    (if count % U16 == 0 then 1 else count % U16) % U8
  }

  /** How many crystal coins addMoney counts, in 32 bits. */
  function Crystals(money: nat): nat {
    money / 10000 % U32
  }

  /** What is left of the money after them: their worth is a 32-bit product. */
  function BelowCrystals(money: nat): nat {
    money - Crystals(money) * 10000 % U32
  }

  function Platinums(money: nat): nat {
    BelowCrystals(money) / 100 % U16
  }

  function BelowPlatinums(money: nat): nat {
    BelowCrystals(money) - Platinums(money) * 100
  }

  /** What addMoney really hands out for an amount. */
  function Minted(money: nat): nat {
    10000 * Crystals(money) +
    (if Platinums(money) == 0 then 0 else 100 * Created(Platinums(money))) +
    (if BelowPlatinums(money) == 0 then 0 else Created(BelowPlatinums(money)))
  }

  lemma SmallPlatinums(p: nat)
    requires p < U16
    ensures Created(p) == if p == 0 then 1 else p % U8
  {
  }

  lemma SmallGolds(j: nat, u: nat)
    requires u < 100
    ensures Created(U16 * (100 * j) + u) == if u == 0 then 1 else u
  {
    DivisionIsUnique(U16 * (100 * j) + u, U16, 100 * j, u);
  }

  /** The coins of each kind that addMoney really hands out. */
  function MintedOf(kind: Kind, money: nat): nat {
    match kind
    case Crystal => Crystals(money)
    case Platinum => if Platinums(money) == 0 then 0 else Created(Platinums(money))
    case Gold => if BelowPlatinums(money) == 0 then 0 else Created(BelowPlatinums(money))
    case NoCoin => 0
  }

  /** The small change handed out for m: two counts that keep only their low bits. */
  lemma SmallChange(m: nat)
    ensures var p := m / 100 % U16; var g := m - p * 100;
      (if p == 0 then 0 else 100 * Created(p)) + (if g == 0 then 0 else Created(g)) ==
        m % 25600 + (if m >= 6553600 && m % 100 == 0 then 1 else 0)
  {
    hide Created;
    var q, u := m / 100, m % 100;
    var j, p := q / U16, q % U16;
    var i, h := p / U8, p % U8;
    assert m == 6553600 * j + 100 * p + u;
    DivisionIsUnique(m, 25600, 256 * j + i, 100 * h + u);
    assert m - p * 100 == U16 * (100 * j) + u;
    SmallPlatinums(p);
    SmallGolds(j, u);
    assert m >= 6553600 <==> j > 0;
  }

  /** The amounts that addMoney hands out to the coin. */
  predicate Exact(money: nat) {
    var wraps := money / 10000 * 10000 / U32;
    money / 10000 < U32 && (wraps == 0 || (wraps % 25 == 0 && money % 100 != 0))
  }

  lemma Residue(r: nat, k: nat) returns (n: nat)
    ensures r + k * U32 == 25600 * n + (r + 4096 * (k % 25))
  {
    var a, b := k / 25, k % 25;
    n := k * 167772 + 4 * a;
    assert k * U32 == 25600 * (k * 167772) + 4096 * k;
    assert 4096 * k == 25600 * (4 * a) + 4096 * b;
  }

  lemma SmallPercent(m: nat, n: nat, y: nat)
    requires m == 25600 * n + y && y < 25600
    ensures m % 25600 == y && m % 100 == y % 100
  {
    var h, l := y / 100, y % 100;
    assert m == 100 * (256 * n + h) + l;
  }

  /** After a product that wrapped k times, the small change is r again for few k only. */
  lemma SmallChangeIsRest(r: nat, k: nat)
    requires r < 10000
    ensures var m := r + k * U32;
      m % 25600 + (if m >= 6553600 && m % 100 == 0 then 1 else 0) == r <==>
        k == 0 || (k % 25 == 0 && r % 100 != 0)
  {
    if k > 0 {
      var m := r + k * U32;
      var n := Residue(r, k);
      var x := r + 4096 * (k % 25);
      SmallPercent(m, n + x / 25600, x % 25600);
    }
  }

  lemma BelowCrystalsIs(money: nat)
    requires money / 10000 < U32
    ensures Crystals(money) == money / 10000
    ensures BelowCrystals(money) == money % 10000 + money / 10000 * 10000 / U32 * U32
  {
  }

  /** addMoney hands out the amount exactly when its 32-bit product does not wrap, or wraps a multiple
      of 25 times and leaves a count of gold coins. */
  lemma MintedExactly(money: nat)
    ensures Minted(money) == money <==> Exact(money)
  {
    SmallChange(BelowCrystals(money));
    if money / 10000 < U32 {
      BelowCrystalsIs(money);
      SmallChangeIsRest(money % 10000, money / 10000 * 10000 / U32);
      assert money % 10000 % 100 == money % 100;
    } else {
      assert 10000 * Crystals(money) + 10000 * U32 <= money;
    }
  }

  /** No product of addMoney wraps below this amount. */
  const SAFE: nat := 4294970000

  lemma SafeAmounts(money: nat)
    requires money < SAFE
    ensures Exact(money) && Minted(money) == money
    ensures BelowCrystals(money) < 10000 && Platinums(money) < 100 && BelowPlatinums(money) < 100
  {
    hide Minted, Created, BelowCrystals;
    FewCrystals(money);
    MintedExactly(money);
    hide Exact;
    BelowSmall(money % 10000);
  }

  /** Whatever is minted is minted as coins of these kinds; below the limit, as few coins as there can be. */
  lemma MintedKinds(money: nat)
    ensures Minted(money) == 10000 * MintedOf(Crystal, money) + 100 * MintedOf(Platinum, money) + MintedOf(Gold, money)
    ensures MintedOf(NoCoin, money) == 0
    ensures money < SAFE ==>
      MintedOf(Crystal, money) == money / 10000 && MintedOf(Platinum, money) == money % 10000 / 100 &&
      MintedOf(Gold, money) == money % 100
  {
    hide BelowPlatinums, Platinums;
    assert Minted(money) == 10000 * MintedOf(Crystal, money) + 100 * MintedOf(Platinum, money) + MintedOf(Gold, money);
    if money < SAFE {
      FewCrystals(money);
      SmallKinds(money);
    }
  }

  lemma SmallKinds(money: nat)
    requires BelowCrystals(money) == money % 10000 && money < SAFE
    ensures MintedOf(Crystal, money) == money / 10000 && MintedOf(Platinum, money) == money % 10000 / 100
    ensures MintedOf(Gold, money) == money % 100
  {
    FewPieces(money, money % 10000);
    hide *;
    SmallCount(money % 10000 / 100);
    SmallCount(money % 100);
    PiecesOfKind(money);
  }

  lemma FewPieces(money: nat, rest: nat)
    requires rest == money % 10000 && BelowCrystals(money) == rest && money < SAFE
    ensures Crystals(money) == money / 10000 && Platinums(money) == rest / 100 && rest / 100 < 100
    ensures BelowPlatinums(money) == money % 100
  {
    hide BelowCrystals;
    assert rest / 100 % U16 == rest / 100;
    assert money / 10000 < U32;
    assert rest - rest / 100 * 100 == rest % 100 == money % 100 by {
      LastDigits(money);
    }
  }

  lemma LastDigits(money: nat)
    ensures money % 10000 % 100 == money % 100
  {
  }

  lemma PiecesOfKind(money: nat)
    ensures MintedOf(Crystal, money) == Crystals(money)
    ensures MintedOf(Platinum, money) == if Platinums(money) == 0 then 0 else Created(Platinums(money))
    ensures MintedOf(Gold, money) == if BelowPlatinums(money) == 0 then 0 else Created(BelowPlatinums(money))
  {
  }

  lemma FewCrystals(money: nat)
    requires money < SAFE
    ensures Exact(money) && BelowCrystals(money) == money % 10000
  {
    var q := money / 10000;
    assert q <= 429496 && q * 10000 < U32;
    assert q % U32 == q && q * 10000 % U32 == q * 10000 && q * 10000 / U32 == 0;
  }

  lemma BelowSmall(rest: nat)
    requires rest < 10000
    ensures rest / 100 % U16 < 100 && rest - rest / 100 % U16 * 100 < 100
  {
    assert rest / 100 % U16 == rest / 100;
  }

  /** From this amount on the product may wrap: 4096 gold too many are handed out for it. */
  lemma FirstWrong()
    ensures Minted(SAFE) == SAFE + 4096
  {
    var m := BelowCrystals(SAFE);
    assert m == 4294967296;
    SmallChange(m);
    assert Crystals(SAFE) == 429497 && m % 25600 == 4096 && m % 100 == 96;
  }

  lemma SmallCount(n: nat)
    requires n < 100
    ensures n > 0 ==> Created(n) == n
  {
  }

  class Cylinder {
    const slots: seq<Thing>
    ghost const items: set<Item>  // everything in the slots, at any depth
    const isPlayer: bool
    var bank: nat
    var pocket: seq<Coins>  // coins added to the cylinder
    var ground: seq<Coins>  // coins dropped on its tile

    /** No item lies in two places, and the counts fit their 8 bits. */
    ghost predicate Valid()
      reads items
    {
      (forall x <- Bag(slots) :: x in items && Bag(slots)[x] == 1) &&
      forall x <- items :: x in Bag(slots) && x.count < U8
    }

    constructor (slots: seq<Thing>, isPlayer: bool, bank: nat)
      requires forall x <- Bag(slots) :: Bag(slots)[x] == 1 && x.count < U8
      ensures Valid() && this.slots == slots && this.isPlayer == isPlayer && this.bank == bank
      ensures pocket == [] && ground == []
    {
      this.slots, this.isPlayer, this.bank := slots, isPlayer, bank;
      items := set x | x in Bag(slots);
      pocket, ground := [], [];
    }

    ghost function Now(): Counts
      reads items
    {
      map x | x in items :: x.count
    }

    /** The bank balance that may be spent. */
    function Usable(useBalance: bool): nat
      reads this`bank
    {
      if useBalance && isPlayer then bank else 0
    }

    function HandedOut(): nat
      reads this
    {
      Sum(pocket) + Sum(ground)
    }

    function Given(kind: Kind): nat
      reads this
    {
      PiecesOf(pocket, kind) + PiecesOf(ground, kind)
    }

    ghost function Wealth(): nat
      reads this, items
    {
      OnHand(slots, Now()) + HandedOut() + bank
    }

    /** internalAddItem to the cylinder, or to its tile when the cylinder refuses. */
    method Give(kind: Kind, count: nat)
      modifies this`pocket, this`ground
      ensures HandedOut() == old(HandedOut()) + WorthOf(kind, count)
      ensures forall k {:trigger Given(k)} :: Given(k) == old(Given(k)) + if k == kind then count else 0
      ensures 1 <= count <= 100 && old(Regular(pocket)) && old(Regular(ground)) ==> Regular(pocket) && Regular(ground)
    {
      var accepted: bool := *;
      SumPushed(pocket, Coins(kind, count));
      SumPushed(ground, Coins(kind, count));
      forall k
        ensures PiecesOf(pocket + [Coins(kind, count)], k) == PiecesOf(pocket, k) + if k == kind then count else 0
        ensures PiecesOf(ground + [Coins(kind, count)], k) == PiecesOf(ground, k) + if k == kind then count else 0
      {
        PiecesPushed(pocket, Coins(kind, count), k);
        PiecesPushed(ground, Coins(kind, count), k);
      }
      if accepted {
        pocket := pocket + [Coins(kind, count)];
      } else {
        ground := ground + [Coins(kind, count)];
      }
    }

    method AddMoney(amount: nat)
      modifies this`pocket, this`ground
      ensures HandedOut() == old(HandedOut()) + Minted(amount)
      ensures forall kind {:trigger Given(kind)} :: Given(kind) == old(Given(kind)) + MintedOf(kind, amount)
      ensures amount < SAFE && old(Regular(pocket)) && old(Regular(ground)) ==> Regular(pocket) && Regular(ground)
    {
      hide Regular, Created, Exact;
      if amount == 0 {
        return;
      }
      var money := amount;
      var crystalCoins := Crystals(money);
      money := money - crystalCoins * 10000 % U32;
      GiveCrystals(crystalCoins);
      var platinumCoins := money / 100 % U16;
      assert money == BelowCrystals(amount) && platinumCoins == Platinums(amount);
      if amount < SAFE {
        SafeAmounts(amount);
        SmallCount(platinumCoins);
        SmallCount(BelowPlatinums(amount));
      }
      if platinumCoins != 0 {
        Give(Platinum, Created(platinumCoins));
        money := money - platinumCoins * 100;
      }
      assert money == BelowPlatinums(amount);
      if money != 0 {
        Give(Gold, Created(money));
      }
    }

    method GiveCrystals(amount: nat)
      modifies this`pocket, this`ground
      ensures HandedOut() == old(HandedOut()) + 10000 * amount
      ensures forall k {:trigger Given(k)} :: Given(k) == old(Given(k)) + if k == Crystal then amount else 0
      ensures old(Regular(pocket)) && old(Regular(ground)) ==> Regular(pocket) && Regular(ground)
    {
      var crystalCoins := amount;
      while crystalCoins > 0
        invariant HandedOut() + 10000 * crystalCoins == old(HandedOut()) + 10000 * amount
        invariant Given(Crystal) + crystalCoins == old(Given(Crystal)) + amount
        invariant forall k {:trigger Given(k)} :: k != Crystal ==> Given(k) == old(Given(k))
        invariant old(Regular(pocket)) && old(Regular(ground)) ==> Regular(pocket) && Regular(ground)
      {
        var count := if crystalCoins < 100 then crystalCoins else 100;
        Give(Crystal, count);
        crystalCoins := crystalCoins - count;
      }
    }

    /** The case of a stack worth more than what is left to pay: the change comes back first. */
    method BreakStack(item: Item, money: nat)
      requires 0 < money < item.Worth() && item.count < U8 && item in items
      modifies item, this`pocket, this`ground
      ensures item.count < old(item.count) && Now() == old(Now())[item := item.count]
      ensures item.Worth() + HandedOut() + money == old(item.Worth()) + old(HandedOut())
      ensures HandedOut() < old(HandedOut()) + Unit(item.kind)
    {
      var worth := item.Worth() / item.count;
      UnitWorth(item.kind, item.count);
      var removeCount := (money + worth - 1) / worth;
      Change(item.kind, item.count, money);
      SafeAmounts(worth * removeCount - money);
      AddMoney(worth * removeCount - money);
      item.count := item.count - removeCount;
    }

    /** internalRemoveItem of a whole stack. */
    method UseUp(item: Item)
      requires item in items
      modifies item
      ensures item.count == 0 && Now() == old(Now())[item := 0]
    {
      item.count := 0;
    }

    /** The loop over the coins, from the cheapest stack up; left is what they could not pay. */
    method Spend(coins: seq<Item>, amount: nat) returns (left: nat, ghost k: nat)
      requires amount > 0 && NoRepeat(coins)
      requires forall x <- items :: x.count < U8
      requires forall i :: 0 <= i < |coins| ==> coins[i] in items && coins[i].Worth() > 0
      modifies items, this`pocket, this`ground
      ensures var c, d := old(Now()), Now();
        left == (if Total(coins, c) >= amount then 0 else amount - Total(coins, c)) &&
        Total(coins, d) + HandedOut() + amount == Total(coins, c) + old(HandedOut()) + left &&
        SpentUpTo(coins, k, c, d) && (left > 0 ==> k == |coins|)
      ensures HandedOut() == old(HandedOut()) || (k < |coins| && HandedOut() < old(HandedOut()) + Unit(coins[k].kind))
    {
      hide NoRepeat, Unit, Sum;
      left, k := amount, 0;
      ghost var c := Now();
      assert coins[0..] == coins;
      for n := 0 to |coins|
        invariant k == n && left > 0
        invariant Total(coins[n..], c) + amount == Total(coins, c) + left
        invariant Now() == Zero(c, Range(coins[..n]))
        invariant unchanged(this)
      {
        var item := coins[n];
        NoRepeatAt(coins, n);
        assert item.count == Now()[item] == c[item] == old(item.count);
        hide Zero, Range;
        assert coins[n..][1..] == coins[n + 1..];
        if item.Worth() > left {
          BreakStack(item, left);
          SpentTotal(coins, n, c, Now());
          left := 0;
          return;
        }
        left := left - item.Worth();
        UseUp(item);
        if left == 0 {
          SpentTotal(coins, n, c, Now());
          return;
        }
        ZeroNext(coins, n, c);
        k := n + 1;
      }
      assert coins[..|coins|] == coins;
      NoWorth(coins, Now());
    }

    /** Spends the coins that were found, and the bank for what they could not pay. */
    method Pay(coins: seq<Item>, ghost rest: seq<Item>, amount: nat, useBalance: bool) returns (ghost k: nat)
      requires Valid() && 0 < amount <= Total(coins, Now()) + Usable(useBalance)
      requires Found(coins, Total(coins, Now()), rest, multiset{}, Bag(slots), Now())
      modifies this`bank, this`pocket, this`ground, items
      ensures Wealth() + amount == old(Wealth())
      ensures SpentUpTo(coins, k, old(Now()), Now())
      ensures HandedOut() == old(HandedOut()) || (k < |coins| && HandedOut() < old(HandedOut()) + Unit(coins[k].kind))
      ensures var have := OnHand(slots, old(Now()));
        bank == old(bank) - if have < amount then amount - have else 0
      ensures OnHand(slots, old(Now())) < amount ==> useBalance && isPlayer && k == |coins|
    {
      CoinsAreItems(coins, rest, slots, Now());
      SameTotals(slots, coins, rest, Now());
      var money;
      money, k := Spend(coins, amount);
      ghost var d := Now();
      StillNoWorth(rest, coins, k, old(Now()), d);
      SameTotals(slots, coins, rest, d);
      FromBank(money, useBalance);
    }

    /** The last step: the guard on the balance never keeps back what is owed. */
    method FromBank(money: nat, useBalance: bool)
      requires money <= Usable(useBalance)
      modifies this`bank
      ensures bank + money == old(bank) && Now() == old(Now()) && HandedOut() == old(HandedOut())
    {
      if useBalance && isPlayer && bank >= money {
        bank := bank - money;
      }
    }

    /** removeMoney; the cylinder is not null. `order` lists its coins, the cheapest stacks first:
        those before k are used up, those after k untouched. */
    method RemoveMoney(amount: nat, useBalance: bool) returns (ok: bool, ghost order: seq<Item>, ghost k: nat)
      requires Valid()
      modifies this`bank, this`pocket, this`ground, items
      ensures var have, usable := OnHand(slots, old(Now())), if useBalance && isPlayer then old(bank) else 0;
        (ok <==> amount == 0 || amount <= Reach(have, usable)) &&
        (have + usable < U64 ==> (ok <==> amount == 0 || amount <= have + usable)) &&
        (ok ==> bank == old(bank) - if have < amount then amount - have else 0)
      ensures ok ==> Wealth() + amount == old(Wealth())
      ensures !ok || amount == 0 ==> unchanged(this) && Now() == old(Now())
      ensures ok && amount > 0 ==> Sorted(order, old(Now())) && SpentUpTo(order, k, old(Now()), Now())
      ensures ok && amount > 0 ==> forall x <- items :: x in order <==> Worth(x, old(Now())) > 0
      ensures HandedOut() != old(HandedOut()) ==>
        k < |order| && HandedOut() < old(HandedOut()) + Unit(order[k].kind)
      ensures ok && OnHand(slots, old(Now())) < amount ==> useBalance && isPlayer && k == |order|
    {
      hide Reach, SpentUpTo, Sum;
      order, k := [], 0;
      if amount == 0 {
        return true, order, k;
      }
      ghost var rest;
      var coins, moneyCount;
      coins, moneyCount, rest := Scan(slots, Now());
      SameTotals(slots, coins, rest, Now());
      ReachAtMost(moneyCount, Usable(useBalance));
      if Reach(moneyCount, Usable(useBalance)) < amount {
        return false, order, k;
      }
      CoinsAreItems(coins, rest, slots, Now());
      order := coins;
      k := Pay(coins, rest, amount, useBalance);
      ok := true;
    }
  }

  /** The sum that is compared with the price, in 64 bits. */
  function Reach(coins: nat, balance: nat): nat {
    (coins + balance) % U64
  }

  lemma ReachAtMost(coins: nat, balance: nat)
    ensures Reach(coins, balance) <= coins + balance
    ensures coins + balance < U64 ==> Reach(coins, balance) == coins + balance
  {
  }

  function Range(s: seq<Item>): set<Item> {
    set x | x in s
  }

  ghost predicate NoRepeat(s: seq<Item>) {
    s == [] || (s[0] !in s[1..] && NoRepeat(s[1..]))
  }

  lemma {:induction false} NoRepeatAt(s: seq<Item>, n: nat)
    requires NoRepeat(s) && n < |s|
    ensures s[n] !in s[..n] && s[n] !in s[n + 1..]
  {
    if n > 0 {
      NoRepeatAt(s[1..], n - 1);
      assert s[..n] == [s[0]] + s[1..][..n - 1];
      assert s[1..][n..] == s[n + 1..];
    }
  }

  lemma {:induction false} NoRepeatInBag(s: seq<Item>, all: multiset<Item>)
    requires multiset(s) <= all && forall x <- all :: all[x] == 1
    ensures NoRepeat(s)
  {
    if s != [] {
      assert s == [s[0]] + s[1..];
      assert s[0] in multiset(s);
      NoRepeatInBag(s[1..], all - multiset{s[0]});
    }
  }

  /** The counts once the items of `used` are gone. */
  ghost function Zero(c: Counts, used: set<Item>): Counts {
    map x | x in c :: if x in used then 0 else c[x]
  }

  lemma ZeroNext(coins: seq<Item>, n: nat, c: Counts)
    requires n < |coins| && coins[n] in c
    ensures Zero(c, Range(coins[..n]))[coins[n] := 0] == Zero(c, Range(coins[..n + 1]))
  {
    assert coins[..n + 1] == coins[..n] + [coins[n]];
  }

  /** From c to d the coins before k were used up, coin k may have lost some, and nothing else changed. */
  ghost predicate SpentUpTo(coins: seq<Item>, k: nat, c: Counts, d: Counts) {
    if k < |coins| then
      coins[k] in c && coins[k] in d && d[coins[k]] <= c[coins[k]] &&
      d == Zero(c, Range(coins[..k]))[coins[k] := d[coins[k]]]
    else k == |coins| && d == Zero(c, Range(coins))
  }

  lemma SpentTotal(coins: seq<Item>, k: nat, c: Counts, d: Counts)
    requires SpentUpTo(coins, k, c, d) && k < |coins| && NoRepeat(coins)
    ensures Total(coins, d) == Worth(coins[k], d) + Total(coins[k + 1..], c)
  {
    TotalSplit(coins, k, d);
    NoRepeatAt(coins, k);
    NoWorth(coins[..k], d);
    var later := coins[k + 1..];
    forall i | 0 <= i < |later| ensures Worth(later[i], c) == Worth(later[i], d) {
      NoRepeatAt(coins, k + 1 + i);
      assert later[i] == coins[k + 1 + i] && coins[..k] <= coins[..k + 1 + i];
    }
    SameTotal(later, c, d);
  }

  lemma StillNoWorth(rest: seq<Item>, coins: seq<Item>, k: nat, c: Counts, d: Counts)
    requires SpentUpTo(coins, k, c, d) && forall i :: 0 <= i < |rest| ==> Worth(rest[i], c) == 0
    ensures forall i :: 0 <= i < |rest| ==> Worth(rest[i], d) == 0
  {
  }

  lemma SameTotals(slots: seq<Thing>, coins: seq<Item>, rest: seq<Item>, c: Counts)
    requires multiset(coins) + multiset(rest) == Bag(slots)
    requires forall i :: 0 <= i < |rest| ==> Worth(rest[i], c) == 0
    ensures OnHand(slots, c) == Total(coins, c)
  {
    BagOfLeaves(slots);
    TotalOfBag(Leaves(slots), coins + rest, c);
    TotalConcat(coins, rest, c);
    NoWorth(rest, c);
  }

  lemma CoinsAreItems(coins: seq<Item>, rest: seq<Item>, slots: seq<Thing>, c: Counts)
    requires multiset(coins) + multiset(rest) == Bag(slots)
    requires forall i :: 0 <= i < |coins| ==> Worth(coins[i], c) > 0
    requires forall i :: 0 <= i < |rest| ==> Worth(rest[i], c) == 0
    requires forall x <- Bag(slots) :: Bag(slots)[x] == 1
    ensures NoRepeat(coins)
    ensures forall i :: 0 <= i < |coins| ==> coins[i] in Bag(slots)
    ensures forall x <- Bag(slots) :: x in coins <==> Worth(x, c) > 0
  {
    NoRepeatInBag(coins, Bag(slots));
    forall i | 0 <= i < |coins| ensures coins[i] in Bag(slots) {
      assert coins[i] in multiset(coins);
    }
    forall x <- Bag(slots) ensures x in coins <==> Worth(x, c) > 0 {
      assert x in multiset(coins) || x in multiset(rest);
    }
  }

  lemma UnitWorth(kind: Kind, count: nat)
    requires count > 0
    ensures WorthOf(kind, count) / count == Unit(kind)
  {
    DivisionIsUnique(Unit(kind) * count, count, Unit(kind), 0);
  }

  /** Rounding up the pieces to break off: never more than there are, and the change is less than one. */
  lemma Change(kind: Kind, count: nat, money: nat)
    requires 0 < money < WorthOf(kind, count)
    ensures Unit(kind) > 0
    ensures var n := (money + Unit(kind) - 1) / Unit(kind);
      0 < n <= count && 0 <= Unit(kind) * n - money < Unit(kind) &&
      WorthOf(kind, count - n) == WorthOf(kind, count) - Unit(kind) * n
  {
  }
}
