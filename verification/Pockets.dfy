// Where an item finds a place on a player: the search of Player::queryDestination
// through the slots and then breadth first through the bags, and what slots and
// bags take (src/creatures/players/player.cpp:3067-3495).
module Pockets {
  import opened Options
  import opened Sequences

  type ItemId = nat

  datatype Slot = Head | Necklace | Backpack | Armor | Right | Left | Legs | Feet | Ring | Ammo

  /** The order in which the slots are searched. */
  const SLOTS := [Head, Necklace, Backpack, Armor, Right, Left, Legs, Feet, Ring, Ammo]

  datatype Weapon = NoWeapon | Shield | Distance | Ammunition | OtherWeapon

  /** What items of a kind have in common. `traits` are the attributes two stacks must share to be joined, `equips`
      the slots in which the equip event lets the player wear the item. */
  datatype Look = Look(
    kind: nat,
    traits: nat,
    fits: set<Slot>,
    twoHanded: bool,
    weapon: Weapon,
    quiver: bool,
    stackable: bool,
    stackSize: nat,
    movable: bool,
    equips: set<Slot>
  )

  datatype Box = NoBox | Box(capacity: nat, contents: seq<Item>)

  /** An item with its weight, that of what is in it included. */
  datatype Item = Item(thing: ItemId, look: Look, count: nat, weight: nat, box: Box)

  /** `free` is the weight the player can still take on. */
  datatype Belongings = Belongings(worn: map<Slot, Item>, free: nat)

  const MAX_CONTAINER := 500
  const MAX_CONTAINER_ITEM := 5000

  // --------------------------------------------------------------------
  // What a slot takes
  // --------------------------------------------------------------------

  /** The answer of a slot that does not ask for the item's position bits. */
  predicate Unfussy(look: Look) {
    look.fits !! {Head, Necklace, Backpack, Armor, Legs, Feet, Ring, Right, Left} && !look.twoHanded
  }

  predicate Free(worn: map<Slot, Item>, slot: Slot, item: Item) {
    slot !in worn || worn[slot].thing == item.thing
  }

  predicate Harmless(weapon: Weapon) {
    weapon == NoWeapon || weapon == Shield || weapon == Ammunition
  }

  /** An item that is bound to no hand, beside what the other hand holds. */
  predicate Beside(worn: map<Slot, Item>, other: Slot, item: Item) {
    other !in worn ||
    (!worn[other].look.twoHanded &&
     (worn[other].thing == item.thing ||
      (!(worn[other].look.weapon == Shield && item.look.weapon == Shield) &&
       (Harmless(worn[other].look.weapon) || Harmless(item.look.weapon)))))
  }

  predicate RightTakes(worn: map<Slot, Item>, item: Item) {
    if Right in item.look.fits then
      (item.look.weapon == Shield || item.look.quiver) &&
      (Left in worn && (worn[Left].look.twoHanded || item.look.twoHanded) ==>
        item.look.quiver && worn[Left].look.weapon == Distance)
    else if item.look.twoHanded then Free(worn, Left, item)
    else Beside(worn, Left, item)
  }

  predicate LeftTakes(worn: map<Slot, Item>, item: Item) {
    if Left in item.look.fits then
      !Harmless(item.look.weapon) &&
      (Right in worn && item.look.twoHanded ==> item.look.weapon == Distance && worn[Right].look.quiver)
    else if item.look.twoHanded then Free(worn, Right, item)
    else Beside(worn, Right, item)
  }

  predicate MayWear(worn: map<Slot, Item>, slot: Slot, item: Item) {
    match slot
    case Right => RightTakes(worn, item)
    case Left => LeftTakes(worn, item)
    case _ => slot in item.look.fits || Unfussy(item.look)
  }

  /** Player::queryAdd for a slot. */
  predicate Takes(p: Belongings, slot: Slot, item: Item) {
    MayWear(p.worn, slot, item) &&
    (slot in p.worn ==> p.worn[slot].look.stackable && p.worn[slot].look.kind == item.look.kind) &&
    item.weight <= p.free && slot in item.look.equips
  }

  /** The right hand: shields and quivers that belong there, unless a hand is missing, save for a quiver beside a
      distance weapon; a two-handed item only with the left hand free; anything else beside no second shield, no second
      weapon, and nothing two-handed. */
  lemma RightHand(worn: map<Slot, Item>, item: Item)
    ensures Right in item.look.fits && item.look.weapon != Shield && !item.look.quiver ==> !RightTakes(worn, item)
    ensures Left !in worn && (Right in item.look.fits ==> item.look.weapon == Shield || item.look.quiver) ==>
      RightTakes(worn, item)
    ensures Left in worn && Right in item.look.fits && (item.look.weapon == Shield || item.look.quiver) ==>
      (RightTakes(worn, item) <==> (!worn[Left].look.twoHanded && !item.look.twoHanded) ||
                                   (item.look.quiver && worn[Left].look.weapon == Distance))
    ensures Left in worn && Right !in item.look.fits && item.look.twoHanded ==>
      (RightTakes(worn, item) <==> worn[Left].thing == item.thing)
    ensures Left in worn && Right !in item.look.fits && !item.look.twoHanded ==>
      (RightTakes(worn, item) <==>
        !worn[Left].look.twoHanded &&
        (worn[Left].thing == item.thing || MaySideBySide(worn[Left].look.weapon, item.look.weapon)))
  {
  }

  /** No two shields and no two weapons. */
  predicate MaySideBySide(a: Weapon, b: Weapon) {
    (a == Shield ==> b != Shield) && (a == Distance || a == OtherWeapon ==> b != Distance && b != OtherWeapon)
  }

  /** The left hand: weapons that belong there, a two-handed one with the right hand free, save for a distance weapon
      beside a quiver; the rest as for the right hand. */
  lemma LeftHand(worn: map<Slot, Item>, item: Item)
    ensures Left in item.look.fits ==>
      (LeftTakes(worn, item) <==>
        (item.look.weapon == Distance || item.look.weapon == OtherWeapon) &&
        (item.look.twoHanded && Right in worn ==> item.look.weapon == Distance && worn[Right].look.quiver))
    ensures Left !in item.look.fits && Right !in worn ==> LeftTakes(worn, item)
    ensures Left !in item.look.fits && Right in worn && item.look.twoHanded ==>
      (LeftTakes(worn, item) <==> worn[Right].thing == item.thing)
    ensures Left !in item.look.fits && Right in worn && !item.look.twoHanded ==>
      (LeftTakes(worn, item) <==>
        !worn[Right].look.twoHanded &&
        (worn[Right].thing == item.thing || MaySideBySide(worn[Right].look.weapon, item.look.weapon)))
  {
  }

  /** The other slots: what belongs there, or what belongs nowhere in particular. */
  lemma OtherSlots(worn: map<Slot, Item>, slot: Slot, item: Item)
    requires slot != Right && slot != Left
    ensures MayWear(worn, slot, item) <==>
      slot in item.look.fits || (!item.look.twoHanded && forall s <- item.look.fits :: s == Ammo)
    ensures MayWear(worn, Right, item) == RightTakes(worn, item) && MayWear(worn, Left, item) == LeftTakes(worn, item)
  {
  }

  /** A slot takes what may be worn there, is not too heavy and passes the equip event, if the slot is empty or holds
      a stackable item of the same kind. */
  lemma SlotTakes(p: Belongings, slot: Slot, item: Item)
    ensures slot !in p.worn ==>
      (Takes(p, slot, item) <==> MayWear(p.worn, slot, item) && item.weight <= p.free && slot in item.look.equips)
    ensures slot in p.worn ==>
      (Takes(p, slot, item) <==>
        MayWear(p.worn, slot, item) && item.weight <= p.free && slot in item.look.equips &&
        p.worn[slot].look.stackable && item.look.kind == p.worn[slot].look.kind)
  {
  }

  /** The stack can take pieces of the item. */
  predicate Joins(stack: Item, item: Item) {
    stack.look.kind == item.look.kind && stack.look.traits == item.look.traits && stack.count < stack.look.stackSize
  }

  // --------------------------------------------------------------------
  // What a bag takes (src/items/containers/container.cpp:429-517)
  // --------------------------------------------------------------------

  function Items(s: seq<Item>): nat {
    if s == [] then 0 else 1 + Inside(s[0]) + Items(s[1..])
  }

  function Inside(x: Item): nat {
    if x.box.NoBox? then 0 else Items(x.box.contents)
  }

  function Bags(s: seq<Item>): nat {
    if s == [] then 0 else (if s[0].box.NoBox? then 0 else 1) + BagsInside(s[0]) + Bags(s[1..])
  }

  function BagsInside(x: Item): nat {
    if x.box.NoBox? then 0 else Bags(x.box.contents)
  }

  type Bag = x: Item | x.box.Box?
    witness Item(0, Look(0, 0, {}, false, NoWeapon, false, false, 0, false, {}), 0, 0, Box(0, []))

  /** A bag the search has come to. `crowd` is the bag whose items are counted against the limits: the one directly
      in the worn bag or, for the worn bag, itself; `around` are the bag and all that it is in. */
  datatype Spot = Spot(bag: Bag, crowd: Bag, worn: bool, around: set<ItemId>)

  function Worn(x: Bag): Spot {
    Spot(x, x, true, {x.thing})
  }

  function Under(spot: Spot, x: Bag): Spot {
    Spot(x, if spot.worn then x else spot.crowd, false, spot.around + {x.thing})
  }

  predicate Uncrowded(crowd: Item, item: Item) {
    if item.box.NoBox? then Inside(crowd) + 1 <= MAX_CONTAINER_ITEM
    else
      BagsInside(item) + 1 + BagsInside(crowd) <= MAX_CONTAINER &&
      Inside(item) + 1 + Inside(crowd) <= MAX_CONTAINER_ITEM
  }

  /** Container::queryAdd for a place in the bag. */
  predicate Fits(free: nat, spot: Spot, item: Item) {
    Uncrowded(spot.crowd, item) && (spot.bag.look.quiver ==> item.look.weapon == Ammunition) && item.weight <= free
  }

  /** A bag takes what is not too heavy, in a quiver only ammunition, while it has fewer than 5000 items; another bag
      also only up to 500 bags, those in it included. */
  lemma BagTakes(free: nat, spot: Spot, item: Item)
    ensures item.box.NoBox? ==>
      (Fits(free, spot, item) <==>
        item.weight <= free && (spot.bag.look.quiver ==> item.look.weapon == Ammunition) &&
        Items(spot.crowd.box.contents) < 5000)
    ensures item.box.Box? ==>
      (Fits(free, spot, item) <==>
        item.weight <= free && (spot.bag.look.quiver ==> item.look.weapon == Ammunition) &&
        Items(spot.crowd.box.contents) + Items([item]) <= 5000 && Bags(spot.crowd.box.contents) + Bags([item]) <= 500)
  {
  }

  /** All items and all bags count, at any depth, a bag with what is in it. */
  lemma {:induction false} CountsAdd(a: seq<Item>, b: seq<Item>, x: Item)
    ensures Items(a + b) == Items(a) + Items(b) && Bags(a + b) == Bags(a) + Bags(b)
    ensures Items([x]) == 1 + if x.box.Box? then Items(x.box.contents) else 0
    ensures Bags([x]) == if x.box.Box? then 1 + Bags(x.box.contents) else 0
  {
    if a == [] {
      assert a + b == b;
    } else {
      assert (a + b)[1..] == a[1..] + b;
      CountsAdd(a[1..], b, x);
    }
  }

  // --------------------------------------------------------------------
  // The search
  // --------------------------------------------------------------------

  datatype Place = InSlot(slot: Slot) | InBag(spot: Spot)

  /** The slots from the i-th one. `own` is the item the player offers in a trade, `joining` whether the item may join
      a stack. */
  function FindSlot(p: Belongings, own: ItemId, item: Item, joining: bool, i: nat): Option<Slot>
    decreases |SLOTS| - i
  {
    if i >= |SLOTS| then None
    else if SlotServes(p, own, item, joining, SLOTS[i]) then Some(SLOTS[i])
    else FindSlot(p, own, item, joining, i + 1)
  }

  predicate SlotServes(p: Belongings, own: ItemId, item: Item, joining: bool, slot: Slot) {
    Takes(p, slot, item) &&
    (slot in p.worn ==>
      joining && p.worn[slot].thing != own && p.worn[slot].thing != item.thing && Joins(p.worn[slot], item))
  }

  predicate Searched(p: Belongings, own: ItemId, item: Item, slot: Slot) {
    slot in p.worn && p.worn[slot].thing != own && p.worn[slot].thing != item.thing && p.worn[slot].box.Box?
  }

  /** The worn bags, from the i-th slot. */
  function WornBags(p: Belongings, own: ItemId, item: Item, i: nat): seq<Spot>
    decreases |SLOTS| - i
  {
    if i >= |SLOTS| then [] else WornBag(p, own, item, SLOTS[i]) + WornBags(p, own, item, i + 1)
  }

  function WornBag(p: Belongings, own: ItemId, item: Item, slot: Slot): seq<Spot> {
    if Searched(p, own, item, slot) then [Worn(p.worn[slot])] else []
  }

  predicate Passed(x: Item, own: ItemId, item: Item) {
    x.thing == own || x.thing == item.thing
  }

  /** The bags directly in a bag; a search for a stack to join passes over the item on offer and the item itself. */
  function Subbags(spot: Spot, s: seq<Item>, own: ItemId, item: Item, joining: bool): seq<Spot> {
    if s == [] then [] else Subbag(spot, s[0], own, item, joining) + Subbags(spot, s[1..], own, item, joining)
  }

  function Subbag(spot: Spot, x: Item, own: ItemId, item: Item, joining: bool): seq<Spot> {
    if x.box.Box? && !(joining && Passed(x, own, item)) then [Under(spot, x)] else []
  }

  predicate HasStack(s: seq<Item>, own: ItemId, item: Item) {
    exists x <- s :: !Passed(x, own, item) && Joins(x, item)
  }

  function Counted(s: seq<Item>, own: ItemId, item: Item): nat {
    if s == [] then 0 else (if Passed(s[0], own, item) then 0 else 1) + Counted(s[1..], own, item)
  }

  function Weigh(queue: seq<Spot>): nat {
    if queue == [] then 0 else 1 + Inside(queue[0].bag) + Weigh(queue[1..])
  }

  lemma {:induction false} WeighConcat(a: seq<Spot>, b: seq<Spot>)
    ensures Weigh(a + b) == Weigh(a) + Weigh(b)
  {
    if a == [] {
      assert a + b == b;
    } else {
      assert (a + b)[1..] == a[1..] + b;
      WeighConcat(a[1..], b);
    }
  }

  lemma {:induction false} SubbagsWeigh(spot: Spot, s: seq<Item>, own: ItemId, item: Item, joining: bool)
    ensures Weigh(Subbags(spot, s, own, item, joining)) <= Items(s)
  {
    if s != [] {
      SubbagsWeigh(spot, s[1..], own, item, joining);
      var head := Subbag(spot, s[0], own, item, joining);
      assert Weigh(head) <= 1 + Inside(s[0]);
      WeighConcat(head, Subbags(spot, s[1..], own, item, joining));
    }
  }

  /** A bag the search takes: one with a stack to join, or with a free place. */
  predicate BagServes(free: nat, spot: Spot, own: ItemId, item: Item, joining: bool)
  {
    var box := spot.bag.box;
    if joining then
      HasStack(box.contents, own, item) || (Counted(box.contents, own, item) < box.capacity && Fits(free, spot, item))
    else |box.contents| < box.capacity && Fits(free, spot, item)
  }

  function Queued(queue: seq<Spot>, own: ItemId, item: Item, joining: bool): seq<Spot>
    requires queue != []
  {
    queue[1..] + Subbags(queue[0], queue[0].bag.box.contents, own, item, joining)
  }

  lemma QueuedIsLighter(queue: seq<Spot>, own: ItemId, item: Item, joining: bool)
    requires queue != []
    ensures Weigh(Queued(queue, own, item, joining)) < Weigh(queue)
  {
    WeighConcat(queue[1..], Subbags(queue[0], queue[0].bag.box.contents, own, item, joining));
    SubbagsWeigh(queue[0], queue[0].bag.box.contents, own, item, joining);
  }

  /** Breadth first through the bags. */
  function FindBag(free: nat, own: ItemId, item: Item, joining: bool, queue: seq<Spot>): Option<Spot>
    decreases Weigh(queue)
  {
    if queue == [] then None
    else if BagServes(free, queue[0], own, item, joining) then Some(queue[0])
    else
      QueuedIsLighter(queue, own, item, joining);
      FindBag(free, own, item, joining, Queued(queue, own, item, joining))
  }

  /** Player::queryDestination for an item that may go anywhere; none stands for the player as a whole, who takes
      nothing then. */
  function Destination(p: Belongings, own: ItemId, item: Item, autoStack: bool): Option<Place> {
    var joining := autoStack && item.look.stackable;
    var slot := FindSlot(p, own, item, joining, 0);
    if slot.Some? then Some(InSlot(slot.value))
    else
      Bagged(FindBag(p.free, own, item, joining, WornBags(p, own, item, 0)))
  }

  function Bagged(spot: Option<Spot>): Option<Place> {
    if spot.Some? then Some(InBag(spot.value)) else None
  }

  /** internalAddItem as a test: the place that was found is asked again, for the whole item. */
  predicate Admits(p: Belongings, own: ItemId, item: Item) {
    match Destination(p, own, item, true)
    case Some(InSlot(slot)) => Takes(p, slot, item)
    case Some(InBag(spot)) => Fits(p.free, spot, item)
    case None => false
  }

  /** Whether internalMoveItem moves the item here, as a stack of its own, and not into the item it must not enter. */
  predicate Receives(p: Belongings, own: ItemId, item: Item, shut: Option<ItemId>) {
    item.look.movable &&
    match Destination(p, own, item, false)
    case Some(InSlot(_)) => true
    case Some(InBag(spot)) => shut.None? || shut.value !in spot.around
    case None => false
  }

  // --------------------------------------------------------------------
  // The search finds a place exactly when there is one
  // --------------------------------------------------------------------

  /** The bag, or one in it, has a free place for the item. */
  ghost predicate HasRoom(free: nat, spot: Spot, item: Item)
    decreases spot.bag
  {
    (|spot.bag.box.contents| < spot.bag.box.capacity && Fits(free, spot, item)) ||
    (exists x <- spot.bag.box.contents :: x.box.Box? && HasRoom(free, Under(spot, x), item))
  }

  ghost predicate AnyRoom(free: nat, queue: seq<Spot>, item: Item) {
    exists k | 0 <= k < |queue| :: HasRoom(free, queue[k], item)
  }

  /** Some empty slot takes the item, or some bag, at any depth, has a free place for it. */
  ghost predicate HasPlace(p: Belongings, own: ItemId, item: Item) {
    (exists slot: Slot :: slot !in p.worn && Takes(p, slot, item)) ||
    (exists slot: Slot :: Searched(p, own, item, slot) && HasRoom(p.free, Worn(p.worn[slot]), item))
  }

  lemma {:induction false} SubbagsRoom(free: nat, spot: Spot, s: seq<Item>, own: ItemId, item: Item)
    ensures AnyRoom(free, Subbags(spot, s, own, item, false), item) <==>
      exists x <- s :: x.box.Box? && HasRoom(free, Under(spot, x), item)
  {
    if s != [] {
      SubbagsRoom(free, spot, s[1..], own, item);
      var head := Subbag(spot, s[0], own, item, false);
      AnyRoomConcat(free, head, Subbags(spot, s[1..], own, item, false), item);
      assert AnyRoom(free, head, item) <==> s[0].box.Box? && HasRoom(free, Under(spot, s[0]), item) by {
        if head != [] {
          assert head[0] == Under(spot, s[0]);
        }
      }
      assert forall x :: x in s <==> x == s[0] || x in s[1..];
    }
  }

  lemma AnyRoomConcat(free: nat, a: seq<Spot>, b: seq<Spot>, item: Item)
    ensures AnyRoom(free, a + b, item) <==> AnyRoom(free, a, item) || AnyRoom(free, b, item)
  {
    hide HasRoom;
    if k :| 0 <= k < |b| && HasRoom(free, b[k], item) {
      assert (a + b)[|a| + k] == b[k];
    }
    if k :| 0 <= k < |a| && HasRoom(free, a[k], item) {
      assert (a + b)[k] == a[k];
    }
  }

  lemma {:induction false} FindBagComplete(free: nat, own: ItemId, item: Item, queue: seq<Spot>)
    ensures FindBag(free, own, item, false, queue).Some? <==> AnyRoom(free, queue, item)
    decreases Weigh(queue)
  {
    if queue != [] {
      var spot := queue[0];
      var subbags := Subbags(spot, spot.bag.box.contents, own, item, false);
      AnyRoomConcat(free, [spot], queue[1..], item);
      assert [spot] + queue[1..] == queue;
      AnyRoomConcat(free, queue[1..], subbags, item);
      SubbagsRoom(free, spot, spot.bag.box.contents, own, item);
      assert AnyRoom(free, [spot], item) <==> HasRoom(free, spot, item);
      QueuedIsLighter(queue, own, item, false);
      FindBagComplete(free, own, item, Queued(queue, own, item, false));
    }
  }

  lemma {:induction false} WornRoom(p: Belongings, own: ItemId, item: Item, i: nat)
    ensures AnyRoom(p.free, WornBags(p, own, item, i), item) <==>
      exists k | i <= k < |SLOTS| :: Searched(p, own, item, SLOTS[k]) && HasRoom(p.free, Worn(p.worn[SLOTS[k]]), item)
    decreases |SLOTS| - i
  {
    hide HasRoom, SLOTS, AnyRoom, WornBag;
    if i < |SLOTS| {
      WornRoom(p, own, item, i + 1);
      AnyRoomConcat(p.free, WornBag(p, own, item, SLOTS[i]), WornBags(p, own, item, i + 1), item);
      WornBagRoom(p, own, item, SLOTS[i]);
    } else {
      NoRoomInNone(p.free, item);
    }
  }

  lemma NoRoomInNone(free: nat, item: Item)
    ensures !AnyRoom(free, [], item)
  {
  }

  lemma WornBagRoom(p: Belongings, own: ItemId, item: Item, slot: Slot)
    ensures AnyRoom(p.free, WornBag(p, own, item, slot), item) <==>
      Searched(p, own, item, slot) && HasRoom(p.free, Worn(p.worn[slot]), item)
  {
    hide HasRoom;
    if Searched(p, own, item, slot) {
      assert WornBag(p, own, item, slot)[0] == Worn(p.worn[slot]);
    }
  }

  lemma EverySlot(slot: Slot)
    ensures slot in SLOTS
  {
    var k := match slot
      case Head => 0 case Necklace => 1 case Backpack => 2 case Armor => 3 case Right => 4
      case Left => 5 case Legs => 6 case Feet => 7 case Ring => 8 case Ammo => 9;
    assert SLOTS[k] == slot;
  }

  lemma {:induction false} FindSlotComplete(p: Belongings, own: ItemId, item: Item, i: nat)
    ensures FindSlot(p, own, item, false, i).Some? <==>
      exists k | i <= k < |SLOTS| :: SLOTS[k] !in p.worn && Takes(p, SLOTS[k], item)
    decreases |SLOTS| - i
  {
    hide Takes;
    if i < |SLOTS| {
      FindSlotComplete(p, own, item, i + 1);
    }
  }

  lemma FindsSlot(p: Belongings, own: ItemId, item: Item)
    ensures FindSlot(p, own, item, false, 0).Some? <==> exists slot: Slot :: slot !in p.worn && Takes(p, slot, item)
  {
    hide Takes, SLOTS;
    FindSlotComplete(p, own, item, 0);
    if slot: Slot :| slot !in p.worn && Takes(p, slot, item) {
      EverySlot(slot);
    }
  }

  lemma FindsBag(p: Belongings, own: ItemId, item: Item)
    ensures FindBag(p.free, own, item, false, WornBags(p, own, item, 0)).Some? <==>
      exists slot: Slot :: Searched(p, own, item, slot) && HasRoom(p.free, Worn(p.worn[slot]), item)
  {
    hide HasRoom, SLOTS;
    FindBagComplete(p.free, own, item, WornBags(p, own, item, 0));
    WornRoom(p, own, item, 0);
    if slot: Slot :| Searched(p, own, item, slot) && HasRoom(p.free, Worn(p.worn[slot]), item) {
      EverySlot(slot);
    }
  }

  /** An item that joins no stack finds a place exactly when there is one. */
  lemma FindsPlace(p: Belongings, own: ItemId, item: Item, autoStack: bool)
    requires !(autoStack && item.look.stackable)
    ensures Destination(p, own, item, autoStack).Some? <==> HasPlace(p, own, item)
  {
    hide Takes, HasRoom, FindSlot, FindBag, WornBags, SLOTS;
    FindsSlot(p, own, item);
    FindsBag(p, own, item);
  }

  // --------------------------------------------------------------------
  // The search for a stack to join
  // --------------------------------------------------------------------

  /** A stack of the same kind and traits with room, other than the item and the one offered for it. */
  predicate Welcomes(stack: Item, own: ItemId, item: Item) {
    stack.thing != own && stack.thing != item.thing && stack.look.kind == item.look.kind &&
    stack.look.traits == item.look.traits && stack.count < stack.look.stackSize
  }

  /** The bag, or one in it that the search enters, has such a stack, or a free place when neither of the two items is
      counted. */
  ghost predicate HasJoin(free: nat, spot: Spot, own: ItemId, item: Item)
    decreases spot.bag
  {
    (exists x <- spot.bag.box.contents :: Welcomes(x, own, item)) ||
    (Counted(spot.bag.box.contents, own, item) < spot.bag.box.capacity && Fits(free, spot, item)) ||
    (exists x <- spot.bag.box.contents ::
      x.box.Box? && x.thing != own && x.thing != item.thing && HasJoin(free, Under(spot, x), own, item))
  }

  ghost predicate AnyJoin(free: nat, queue: seq<Spot>, own: ItemId, item: Item) {
    exists k | 0 <= k < |queue| :: HasJoin(free, queue[k], own, item)
  }

  lemma AnyJoinConcat(free: nat, a: seq<Spot>, b: seq<Spot>, own: ItemId, item: Item)
    ensures AnyJoin(free, a + b, own, item) <==> AnyJoin(free, a, own, item) || AnyJoin(free, b, own, item)
  {
    hide HasJoin;
    if k :| 0 <= k < |b| && HasJoin(free, b[k], own, item) {
      assert (a + b)[|a| + k] == b[k];
    }
    if k :| 0 <= k < |a| && HasJoin(free, a[k], own, item) {
      assert (a + b)[k] == a[k];
    }
  }

  lemma {:induction false} SubbagsJoin(free: nat, spot: Spot, s: seq<Item>, own: ItemId, item: Item)
    ensures AnyJoin(free, Subbags(spot, s, own, item, true), own, item) <==>
      exists x <- s :: x.box.Box? && x.thing != own && x.thing != item.thing && HasJoin(free, Under(spot, x), own, item)
  {
    hide HasJoin;
    if s != [] {
      SubbagsJoin(free, spot, s[1..], own, item);
      var head := Subbag(spot, s[0], own, item, true);
      AnyJoinConcat(free, head, Subbags(spot, s[1..], own, item, true), own, item);
      if head != [] {
        assert head[0] == Under(spot, s[0]);
      }
      assert forall x :: x in s <==> x == s[0] || x in s[1..];
    }
  }

  lemma JoinHere(free: nat, spot: Spot, own: ItemId, item: Item)
    ensures HasJoin(free, spot, own, item) <==>
      BagServes(free, spot, own, item, true) ||
      AnyJoin(free, Subbags(spot, spot.bag.box.contents, own, item, true), own, item)
  {
    SubbagsJoin(free, spot, spot.bag.box.contents, own, item);
    hide AnyJoin, Subbags, Fits;
    assert HasStack(spot.bag.box.contents, own, item) <==>
      exists x <- spot.bag.box.contents :: Welcomes(x, own, item);
  }

  lemma {:induction false} FindBagJoins(free: nat, own: ItemId, item: Item, queue: seq<Spot>)
    ensures FindBag(free, own, item, true, queue).Some? <==> AnyJoin(free, queue, own, item)
    decreases Weigh(queue)
  {
    hide HasJoin, BagServes, Subbags;
    if queue != [] {
      var spot := queue[0];
      var subbags := Subbags(spot, spot.bag.box.contents, own, item, true);
      AnyJoinConcat(free, [spot], queue[1..], own, item);
      assert [spot] + queue[1..] == queue;
      AnyJoinConcat(free, queue[1..], subbags, own, item);
      JoinHere(free, spot, own, item);
      assert AnyJoin(free, [spot], own, item) <==> HasJoin(free, spot, own, item) by {
        assert [spot][0] == spot;
      }
      QueuedIsLighter(queue, own, item, true);
      FindBagJoins(free, own, item, Queued(queue, own, item, true));
    }
  }

  lemma {:induction false} WornJoin(p: Belongings, own: ItemId, item: Item, i: nat)
    ensures AnyJoin(p.free, WornBags(p, own, item, i), own, item) <==>
      exists k | i <= k < |SLOTS| ::
        Searched(p, own, item, SLOTS[k]) && HasJoin(p.free, Worn(p.worn[SLOTS[k]]), own, item)
    decreases |SLOTS| - i
  {
    hide HasJoin, SLOTS, AnyJoin, WornBag;
    if i < |SLOTS| {
      WornJoin(p, own, item, i + 1);
      AnyJoinConcat(p.free, WornBag(p, own, item, SLOTS[i]), WornBags(p, own, item, i + 1), own, item);
      WornBagJoin(p, own, item, SLOTS[i]);
    } else {
      assert !AnyJoin(p.free, [], own, item) by {
        NoJoinInNone(p.free, own, item);
      }
    }
  }

  lemma NoJoinInNone(free: nat, own: ItemId, item: Item)
    ensures !AnyJoin(free, [], own, item)
  {
  }

  lemma WornBagJoin(p: Belongings, own: ItemId, item: Item, slot: Slot)
    ensures AnyJoin(p.free, WornBag(p, own, item, slot), own, item) <==>
      Searched(p, own, item, slot) && HasJoin(p.free, Worn(p.worn[slot]), own, item)
  {
    hide HasJoin;
    if Searched(p, own, item, slot) {
      assert WornBag(p, own, item, slot)[0] == Worn(p.worn[slot]);
    }
  }

  lemma {:induction false} FindSlotJoins(p: Belongings, own: ItemId, item: Item, i: nat)
    ensures FindSlot(p, own, item, true, i).Some? <==>
      exists k | i <= k < |SLOTS| ::
        Takes(p, SLOTS[k], item) && (SLOTS[k] in p.worn ==> Welcomes(p.worn[SLOTS[k]], own, item))
    decreases |SLOTS| - i
  {
    hide Takes;
    if i < |SLOTS| {
      FindSlotJoins(p, own, item, i + 1);
    }
  }

  /** A stackable item that may join a stack finds a destination exactly when some slot takes it, empty or with a stack
      that has room, or some bag in reach has such a stack or a free place. */
  lemma FindsJoin(p: Belongings, own: ItemId, item: Item)
    requires item.look.stackable
    ensures Destination(p, own, item, true).Some? <==>
      (exists slot: Slot ::
        Takes(p, slot, item) && (slot in p.worn ==> Welcomes(p.worn[slot], own, item))) ||
      (exists slot: Slot ::
        slot in p.worn && p.worn[slot].thing != own && p.worn[slot].thing != item.thing && p.worn[slot].box.Box? &&
        HasJoin(p.free, Worn(p.worn[slot]), own, item))
  {
    hide Takes, HasJoin, SLOTS, Welcomes, FindSlot, FindBag, WornBags;
    JoinsInSlot(p, own, item);
    JoinsInBag(p, own, item);
  }

  lemma JoinsInSlot(p: Belongings, own: ItemId, item: Item)
    ensures FindSlot(p, own, item, true, 0).Some? <==>
      exists slot: Slot :: Takes(p, slot, item) && (slot in p.worn ==> Welcomes(p.worn[slot], own, item))
  {
    hide Takes, SLOTS, Welcomes;
    FindSlotJoins(p, own, item, 0);
    if slot: Slot :| Takes(p, slot, item) && (slot in p.worn ==> Welcomes(p.worn[slot], own, item)) {
      EverySlot(slot);
    }
  }

  lemma JoinsInBag(p: Belongings, own: ItemId, item: Item)
    ensures FindBag(p.free, own, item, true, WornBags(p, own, item, 0)).Some? <==>
      exists slot: Slot ::
        slot in p.worn && p.worn[slot].thing != own && p.worn[slot].thing != item.thing && p.worn[slot].box.Box? &&
        HasJoin(p.free, Worn(p.worn[slot]), own, item)
  {
    hide HasJoin, SLOTS;
    FindBagJoins(p.free, own, item, WornBags(p, own, item, 0));
    WornJoin(p, own, item, 0);
    if slot: Slot :| Searched(p, own, item, slot) && HasJoin(p.free, Worn(p.worn[slot]), own, item) {
      EverySlot(slot);
    }
  }

  /** The first slot in the order of the search that serves; a bag only when no slot does. */
  lemma SearchOrder(p: Belongings, own: ItemId, item: Item, autoStack: bool)
    ensures var joining := autoStack && item.look.stackable;
      match Destination(p, own, item, autoStack)
      case Some(InSlot(slot)) =>
        SlotServes(p, own, item, joining, slot) &&
        forall j, k :: 0 <= j < k < |SLOTS| && SLOTS[k] == slot ==> !SlotServes(p, own, item, joining, SLOTS[j])
      case Some(InBag(spot)) =>
        BagServes(p.free, spot, own, item, joining) && forall slot: Slot :: !SlotServes(p, own, item, joining, slot)
      case None => forall slot: Slot :: !SlotServes(p, own, item, joining, slot)
  {
    hide SlotServes, BagServes, SLOTS;
    var joining := autoStack && item.look.stackable;
    EachSlotOnce();
    FirstSlot(p, own, item, joining, 0);
    FoundBag(p.free, own, item, joining, WornBags(p, own, item, 0));
    if FindSlot(p, own, item, joining, 0).None? {
      forall slot: Slot ensures !SlotServes(p, own, item, joining, slot) {
        EverySlot(slot);
        var k :| 0 <= k < |SLOTS| && SLOTS[k] == slot;
      }
    }
  }

  lemma EachSlotOnce()
    ensures forall j, k :: 0 <= j < k < |SLOTS| ==> SLOTS[j] != SLOTS[k]
  {
  }

  lemma {:induction false} FirstSlot(p: Belongings, own: ItemId, item: Item, joining: bool, i: nat)
    ensures match FindSlot(p, own, item, joining, i)
      case Some(slot) =>
        exists k | i <= k < |SLOTS| :: SLOTS[k] == slot && SlotServes(p, own, item, joining, slot) &&
          forall j | i <= j < k :: !SlotServes(p, own, item, joining, SLOTS[j])
      case None => forall j | i <= j < |SLOTS| :: !SlotServes(p, own, item, joining, SLOTS[j])
    decreases |SLOTS| - i
  {
    hide SlotServes, SLOTS;
    if i < |SLOTS| {
      FirstSlot(p, own, item, joining, i + 1);
    }
  }

  lemma {:induction false} FoundBag(free: nat, own: ItemId, item: Item, joining: bool, queue: seq<Spot>)
    ensures var spot := FindBag(free, own, item, joining, queue);
      spot.Some? ==> BagServes(free, spot.value, own, item, joining)
    decreases Weigh(queue)
  {
    if queue != [] {
      hide BagServes, Subbags;
      QueuedIsLighter(queue, own, item, joining);
      FoundBag(free, own, item, joining, Queued(queue, own, item, joining));
    }
  }

  lemma {:induction false} NoSlotServes(p: Belongings, own: ItemId, item: Item, joining: bool, i: nat)
    requires forall slot: Slot :: !SlotServes(p, own, item, joining, slot)
    ensures FindSlot(p, own, item, joining, i) == None
    decreases |SLOTS| - i
  {
    if i < |SLOTS| {
      NoSlotServes(p, own, item, joining, i + 1);
    }
  }

  lemma {:induction false} NoBagsFrom(p: Belongings, own: ItemId, item: Item, i: nat)
    requires forall k | i <= k < |SLOTS| :: !Searched(p, own, item, SLOTS[k])
    ensures WornBags(p, own, item, i) == []
    decreases |SLOTS| - i
  {
    if i < |SLOTS| {
      NoBagsFrom(p, own, item, i + 1);
    }
  }

  /** A player who wears nothing but a bag, in which the item finds what the search wants. */
  lemma OnlyBag(p: Belongings, own: ItemId, item: Item, bag: Item, autoStack: bool, joining: bool)
    requires p.worn == map[Backpack := bag] && bag.thing != own && bag.thing != item.thing && bag.box.Box?
    requires joining == (autoStack && item.look.stackable)
    requires forall slot: Slot :: !SlotServes(p, own, item, joining, slot)
    requires BagServes(p.free, Worn(bag), own, item, joining)
    ensures Destination(p, own, item, autoStack) == Some(InBag(Worn(bag)))
  {
    hide SlotServes, BagServes;
    NoSlotServes(p, own, item, joining, 0);
    NoBagsFrom(p, own, item, 3);
    assert WornBags(p, own, item, 2) == [Worn(bag)];
    assert WornBags(p, own, item, 1) == [Worn(bag)];
    assert WornBags(p, own, item, 0) == [Worn(bag)];
  }

  // --------------------------------------------------------------------
  // An item taken out leaves the others a place
  // --------------------------------------------------------------------

  /** The item without another one that was in it. */
  function Without(x: Item, out: ItemId): Item {
    if x.box.NoBox? then x else x.(box := x.box.(contents := Rest(x.box.contents, out)))
  }

  function Rest(s: seq<Item>, out: ItemId): seq<Item> {
    if s == [] then []
    else (if s[0].thing == out then [] else [Without(s[0], out)]) + Rest(s[1..], out)
  }

  /** The weight the item has among these, at any depth. */
  function WeightOf(s: seq<Item>, out: ItemId): nat {
    if s == [] then 0 else WeightIn(s[0], out) + WeightOf(s[1..], out)
  }

  function WeightIn(x: Item, out: ItemId): nat {
    if x.thing == out then x.weight else if x.box.NoBox? then 0 else WeightOf(x.box.contents, out)
  }

  function WornWeight(p: Belongings, out: ItemId, i: nat): nat
    decreases |SLOTS| - i
  {
    if i >= |SLOTS| then 0
    else
      (if SLOTS[i] in p.worn then WeightIn(p.worn[SLOTS[i]], out) else 0) + WornWeight(p, out, i + 1)
  }

  /** The player after the item has left. */
  function Lighter(p: Belongings, out: ItemId): Belongings {
    Belongings(
      map slot <- p.worn | p.worn[slot].thing != out :: Without(p.worn[slot], out),
      p.free + WornWeight(p, out, 0))
  }

  /** An item is as heavy as it is wherever it lies; what is in it is in its weight. */
  lemma {:induction false} WeightsAdd(a: seq<Item>, b: seq<Item>, x: Item, out: ItemId)
    ensures WeightOf(a + b, out) == WeightOf(a, out) + WeightOf(b, out)
    ensures WeightOf([x], out) ==
      if x.thing == out then x.weight else if x.box.Box? then WeightOf(x.box.contents, out) else 0
  {
    if a == [] {
      assert a + b == b;
    } else {
      assert (a + b)[1..] == a[1..] + b;
      WeightsAdd(a[1..], b, x, out);
    }
  }

  /** The player can take on more by just that weight, once the item has left. */
  lemma LighterBy(p: Belongings, slot: Slot, x: Item, out: ItemId)
    requires slot in p.worn && p.worn[slot] == x
    ensures Lighter(p.(worn := p.worn - {slot}), out).free + WeightOf([x], out) == Lighter(p, out).free
    ensures Lighter(p.(worn := map[]), out).free == p.free
  {
    hide SLOTS;
    EachSlotOnce();
    EverySlot(slot);
    var k :| 0 <= k < |SLOTS| && SLOTS[k] == slot;
    WeightsAdd([], [], x, out);
    WornLess(p, k, out, 0);
    NothingWorn(p, out, 0);
  }

  lemma {:induction false} NothingWorn(p: Belongings, out: ItemId, i: nat)
    ensures WornWeight(p.(worn := map[]), out, i) == 0
    decreases |SLOTS| - i
  {
    if i < |SLOTS| {
      NothingWorn(p, out, i + 1);
    }
  }

  lemma {:induction false} WornLess(p: Belongings, k: nat, out: ItemId, i: nat)
    requires k < |SLOTS| && SLOTS[k] in p.worn && forall j :: 0 <= j < |SLOTS| && j != k ==> SLOTS[j] != SLOTS[k]
    ensures WornWeight(p, out, i) ==
      WornWeight(p.(worn := p.worn - {SLOTS[k]}), out, i) + if i <= k then WeightIn(p.worn[SLOTS[k]], out) else 0
    decreases |SLOTS| - i
  {
    hide SLOTS, WeightIn;
    if i < |SLOTS| {
      WornLess(p, k, out, i + 1);
    }
  }

  /** No bag holds more than it can, and a quiver holds no bag. */
  ghost predicate Sound(x: Item)
    decreases x
  {
    x.box.Box? ==>
      |x.box.contents| <= x.box.capacity &&
      (forall y <- x.box.contents :: Sound(y)) &&
      (x.look.quiver ==> forall y <- x.box.contents :: y.box.NoBox?)
  }

  lemma {:induction false} RestHas(s: seq<Item>, out: ItemId, x: Item)
    requires x in s
    ensures x.thing != out ==> Without(x, out) in Rest(s, out)
    ensures x.thing == out ==> |Rest(s, out)| < |s|
  {
    if s[0] != x {
      RestHas(s[1..], out, x);
    } else {
      RestIsShorter(s[1..], out);
    }
  }

  lemma {:induction false} RestIsShorter(s: seq<Item>, out: ItemId)
    ensures |Rest(s, out)| <= |s|
  {
    if s != [] {
      RestIsShorter(s[1..], out);
    }
  }

  lemma {:induction false} RestHoldsLess(s: seq<Item>, out: ItemId)
    ensures Items(Rest(s, out)) <= Items(s) && Bags(Rest(s, out)) <= Bags(s)
  {
    if s != [] {
      HoldsLess(s[0], out);
      RestHoldsLess(s[1..], out);
      var y := Without(s[0], out);
      assert ([y] + Rest(s[1..], out))[1..] == Rest(s[1..], out);
      assert ([] + Rest(s[1..], out)) == Rest(s[1..], out);
    }
  }

  lemma {:induction false} HoldsLess(x: Item, out: ItemId)
    ensures Inside(Without(x, out)) <= Inside(x) && BagsInside(Without(x, out)) <= BagsInside(x)
  {
    if x.box.Box? {
      RestHoldsLess(x.box.contents, out);
    }
  }

  /** Room under a bag means that the item is light enough and, below the worn bag, that the limits allow it. */
  lemma {:induction false} RoomAllows(free: nat, spot: Spot, item: Item)
    requires HasRoom(free, spot, item)
    ensures item.weight <= free && (!spot.worn ==> Uncrowded(spot.crowd, item))
    decreases spot.bag
  {
    if !Fits(free, spot, item) {
      var x :| x in spot.bag.box.contents && x.box.Box? && HasRoom(free, Under(spot, x), item);
      RoomAllows(free, Under(spot, x), item);
    }
  }

  predicate HoldsDirectly(x: Item, out: ItemId) {
    x.box.Box? && exists y <- x.box.contents :: y.thing == out
  }

  /** The room for an item is still there, or the place of the item that left is; unless that place is directly in the
      worn bag, which counts what all its bags hold, and is past the limits. */
  lemma {:induction false} RoomStays(free: nat, spot: Spot, later: Spot, more: nat, out: ItemId, item: Item)
    requires HasRoom(free, spot, item) && free <= more && Sound(spot.bag) && spot.bag.thing != out
    requires later.bag == Without(spot.bag, out) && later.crowd == Without(spot.crowd, out) && later.worn == spot.worn
    ensures HasRoom(more, later, item) ||
            (spot.worn && HoldsDirectly(spot.bag, out) && !Uncrowded(later.crowd, item))
    decreases spot.bag
  {
    HoldsLess(spot.crowd, out);
    RoomAllows(free, spot, item);
    var box := spot.bag.box;
    RestIsShorter(box.contents, out);
    if !(|box.contents| < box.capacity && Fits(free, spot, item)) {
      var x :| x in box.contents && x.box.Box? && HasRoom(free, Under(spot, x), item);
      RestHas(box.contents, out, x);
      if x.thing != out {
        RoomStays(free, Under(spot, x), Under(later, Without(x, out)), more, out, item);
      }
    }
  }

  ghost predicate SoundBelongings(p: Belongings) {
    forall slot <- p.worn :: Sound(p.worn[slot])
  }

  /** The item on offer lies directly in a worn bag that is past the limits even without it. */
  predicate Cramped(p: Belongings, own: ItemId, item: Item) {
    exists slot <- p.worn ::
      p.worn[slot].thing != own && HoldsDirectly(p.worn[slot], own) && !Uncrowded(Without(p.worn[slot], own), item)
  }

  /** The item that leaves lies directly in a bag that is worn, and that bag is past a limit even without it. */
  lemma CrampedBags(p: Belongings, own: ItemId, item: Item)
    requires Cramped(p, own, item)
    ensures exists slot <- p.worn ::
      p.worn[slot].thing != own && p.worn[slot].box.Box? && (exists y <- p.worn[slot].box.contents :: y.thing == own) &&
      var left := Rest(p.worn[slot].box.contents, own);
      Items(left) + Items([item]) > 5000 || (item.box.Box? && Bags(left) + Bags([item]) > 500)
  {
    var slot :| slot in p.worn && p.worn[slot].thing != own && HoldsDirectly(p.worn[slot], own) &&
                !Uncrowded(Without(p.worn[slot], own), item);
    CountsAdd([], [], item);
  }

  /** What leaves a hand or a slot closes no other slot. */
  lemma SlotsStayOpen(p: Belongings, own: ItemId, slot: Slot, item: Item)
    requires slot !in p.worn && Takes(p, slot, item)
    ensures slot !in Lighter(p, own).worn && Takes(Lighter(p, own), slot, item)
  {
    hide WornWeight;
  }

  lemma PlaceStays(p: Belongings, own: ItemId, item: Item)
    requires SoundBelongings(p) && HasPlace(p, own, item)
    ensures HasPlace(Lighter(p, own), own, item) || Cramped(p, own, item)
  {
    hide HasRoom, Takes, WornWeight, Uncrowded;
    var later := Lighter(p, own);
    if slot: Slot :| slot !in p.worn && Takes(p, slot, item) {
      SlotsStayOpen(p, own, slot, item);
    } else {
      var slot: Slot :| Searched(p, own, item, slot) && HasRoom(p.free, Worn(p.worn[slot]), item);
      RoomStays(p.free, Worn(p.worn[slot]), Worn(later.worn[slot]), later.free, own, item);
      assert Searched(later, own, item, slot);
    }
  }

  /** Once the other item has left, the move succeeds exactly when the item may be moved and has a place to itself. */
  lemma ReceivesAfterwards(p: Belongings, own: ItemId, item: Item)
    ensures Receives(Lighter(p, own), own, item, None) <==> item.look.movable && HasPlace(Lighter(p, own), own, item)
  {
    hide Destination, HasPlace;
    FindsPlace(Lighter(p, own), own, item, false);
  }

  lemma {:induction false} FoundSlotServes(p: Belongings, own: ItemId, item: Item, joining: bool, i: nat)
    ensures var slot := FindSlot(p, own, item, joining, i); slot.Some? ==> SlotServes(p, own, item, joining, slot.value)
    decreases |SLOTS| - i
  {
    if i < |SLOTS| {
      FoundSlotServes(p, own, item, joining, i + 1);
    }
  }

  lemma {:induction false} FoundBagServes(free: nat, own: ItemId, item: Item, joining: bool, queue: seq<Spot>)
    ensures var spot := FindBag(free, own, item, joining, queue);
      spot.Some? && !joining ==> Fits(free, spot.value, item)
    decreases Weigh(queue)
  {
    if queue != [] {
      hide Fits;
      QueuedIsLighter(queue, own, item, joining);
      FoundBagServes(free, own, item, joining, Queued(queue, own, item, joining));
    }
  }

  /** An item that does not stack passes the test exactly when it has a place. */
  lemma AdmitsPlace(p: Belongings, own: ItemId, item: Item)
    requires !item.look.stackable
    ensures Admits(p, own, item) <==> HasPlace(p, own, item)
  {
    hide HasPlace, FindSlot, FindBag, Takes, Fits, WornBags;
    FindsPlace(p, own, item, true);
    FoundSlotServes(p, own, item, false, 0);
    FoundBagServes(p.free, own, item, false, WornBags(p, own, item, 0));
  }

  /** Whatever is admitted or received is not too heavy; and what may not enter an item is not moved into it. */
  lemma NeverTooHeavy(p: Belongings, own: ItemId, item: Item, x: ItemId)
    ensures Admits(p, own, item) || Receives(p, own, item, None) ==> item.weight <= p.free
    ensures Receives(p, own, item, None) <==> item.look.movable && HasPlace(p, own, item)
    ensures Receives(p, own, item, Some(x)) <==>
      Receives(p, own, item, None) &&
      match Destination(p, own, item, false)
      case Some(InBag(spot)) => x !in spot.around
      case _ => true
  {
    hide HasPlace, FindSlot, FindBag, WornBags;
    FindsPlace(p, own, item, false);
    FoundSlotServes(p, own, item, false, 0);
    FoundBagServes(p.free, own, item, false, WornBags(p, own, item, 0));
  }

  /** An item that does not stack and has passed the test has a place afterwards, even if the test found it in the very
      item that leaves, unless that item leaves a crowded worn bag. */
  lemma AdmittedStays(p: Belongings, own: ItemId, item: Item)
    requires SoundBelongings(p) && !item.look.stackable && Admits(p, own, item)
    ensures HasPlace(Lighter(p, own), own, item) || Cramped(p, own, item)
  {
    hide HasPlace, SoundBelongings, Cramped;
    AdmitsPlace(p, own, item);
    PlaceStays(p, own, item);
  }

  lemma {:induction false} NoneOut(s: seq<Item>, out: ItemId)
    requires forall x <- s :: x.box.NoBox? && x.thing != out
    ensures Rest(s, out) == s
  {
    if s != [] {
      NoneOut(s[1..], out);
      assert s == [s[0]] + s[1..];
    }
  }

  lemma {:induction false} NoBagsAmong(s: seq<Item>)
    requires forall x <- s :: x.box.NoBox?
    ensures Items(s) == |s| && Bags(s) == 0
  {
    if s != [] {
      NoBagsAmong(s[1..]);
    }
  }

  // --------------------------------------------------------------------
  // The loops
  // --------------------------------------------------------------------

  method QueryDestination(p: Belongings, own: ItemId, item: Item, autoStack: bool) returns (place: Option<Place>)
    ensures place == Destination(p, own, item, autoStack)
  {
    var joining := autoStack && item.look.stackable;
    var containers: seq<Spot> := [];
    var slotIndex := 0;
    hide SLOTS, WornBag, SlotServes;
    while slotIndex < |SLOTS|
      invariant slotIndex <= |SLOTS|
      invariant FindSlot(p, own, item, joining, 0) == FindSlot(p, own, item, joining, slotIndex)
      invariant WornBags(p, own, item, 0) == containers + WornBags(p, own, item, slotIndex)
    {
      var stops, worn := VisitSlot(p, own, item, joining, SLOTS[slotIndex]);
      if stops {
        return Some(InSlot(SLOTS[slotIndex]));
      }
      Associate(containers, worn, WornBags(p, own, item, slotIndex + 1));
      containers := containers + worn;
      slotIndex := slotIndex + 1;
    }
    assert WornBags(p, own, item, 0) == containers;
    place := SearchBags(p.free, own, item, joining, containers);
  }

  method VisitSlot(p: Belongings, own: ItemId, item: Item, joining: bool, slot: Slot)
    returns (stops: bool, worn: seq<Spot>)
    ensures stops <==> SlotServes(p, own, item, joining, slot)
    ensures !stops ==> worn == WornBag(p, own, item, slot)
  {
    worn := [];
    if slot in p.worn {
      var inventoryItem := p.worn[slot];
      if inventoryItem.thing == own || inventoryItem.thing == item.thing {
        return false, [];
      }
      stops := joining && Takes(p, slot, item) && Joins(inventoryItem, item);
      if inventoryItem.box.Box? {
        worn := [Worn(inventoryItem)];
      }
    } else {
      stops := Takes(p, slot, item);
    }
  }

  lemma FindBagNext(free: nat, own: ItemId, item: Item, joining: bool, queue: seq<Spot>)
    requires queue != []
    ensures var rest := queue[1..] + Subbags(queue[0], queue[0].bag.box.contents, own, item, joining);
      if BagServes(free, queue[0], own, item, joining)
      then FindBag(free, own, item, joining, queue) == Some(queue[0])
      else FindBag(free, own, item, joining, queue) == FindBag(free, own, item, joining, rest) &&
           Weigh(rest) < Weigh(queue)
  {
    hide BagServes, Weigh, Subbags;
    QueuedIsLighter(queue, own, item, joining);
  }

  lemma NextInLine(containers: seq<Spot>, subbags: seq<Spot>, i: nat)
    requires i < |containers|
    ensures (containers + subbags)[i + 1..] == containers[i..][1..] + subbags
  {
  }

  /** The list grows while it is worked off. */
  method SearchBags(free: nat, own: ItemId, item: Item, joining: bool, worn: seq<Spot>) returns (place: Option<Place>)
    ensures place == Bagged(FindBag(free, own, item, joining, worn))
  {
    var containers := worn;
    var i := 0;
    while i < |containers|
      invariant i <= |containers|
      invariant FindBag(free, own, item, joining, worn) == FindBag(free, own, item, joining, containers[i..])
      decreases Weigh(containers[i..])
    {
      hide *;
      FindBagNext(free, own, item, joining, containers[i..]);
      var spot := containers[i];
      var stops, subbags := VisitBag(free, spot, own, item, joining);
      if stops {
        return Some(InBag(spot));
      }
      NextInLine(containers, subbags, i);
      containers := containers + subbags;
      i := i + 1;
    }
    place := None;
  }

  lemma NextSubbag(found: seq<Spot>, spot: Spot, s: seq<Item>, own: ItemId, item: Item, joining: bool)
    requires s != []
    ensures var more := Subbags(spot, s[1..], own, item, joining);
      found + Subbags(spot, s, own, item, joining) ==
      (if s[0].box.Box? && !(joining && Passed(s[0], own, item)) then found + [Under(spot, s[0])] else found) + more
  {
    hide Under, Passed;
    var first := Subbag(spot, s[0], own, item, joining);
    assert Subbags(spot, s, own, item, joining) == first + Subbags(spot, s[1..], own, item, joining);
    Associate(found, first, Subbags(spot, s[1..], own, item, joining));
    assert found + [] == found;
    hide Subbags;
  }

  method VisitBag(free: nat, spot: Spot, own: ItemId, item: Item, joining: bool)
    returns (stops: bool, subbags: seq<Spot>)
    ensures stops <==> BagServes(free, spot, own, item, joining)
    ensures !stops ==> subbags == Subbags(spot, spot.bag.box.contents, own, item, joining)
  {
    var box := spot.bag.box;
    subbags := [];
    if !joining && |box.contents| < box.capacity && Fits(free, spot, item) {
      return true, [];
    }
    var n, k := 0, 0;
    ghost var all := Subbags(spot, box.contents, own, item, joining);
    while k < |box.contents|
      invariant k <= |box.contents|
      invariant all == subbags + Subbags(spot, box.contents[k..], own, item, joining)
      invariant joining ==> Counted(box.contents, own, item) == n + Counted(box.contents[k..], own, item)
      invariant joining ==> forall j | 0 <= j < k :: Passed(box.contents[j], own, item) || !Joins(box.contents[j], item)
    {
      hide Joins, Fits, Subbags;
      var x := box.contents[k];
      ghost var rest := box.contents[k..];
      assert rest[0] == x && rest[1..] == box.contents[k + 1..];
      NextSubbag(subbags, spot, rest, own, item, joining);
      k := k + 1;
      if joining {
        if Passed(x, own, item) {
          continue;
        }
        if Joins(x, item) {
          return true, [];
        }
        n := n + 1;
      }
      if x.box.Box? {
        subbags := subbags + [Under(spot, x)];
      }
    }
    stops := joining && n < box.capacity && Fits(free, spot, item);
  }

  /** internalAddItem as a test. */
  method TestAddItem(p: Belongings, own: ItemId, item: Item) returns (ok: bool)
    ensures ok <==> Admits(p, own, item)
  {
    var place := QueryDestination(p, own, item, true);
    ok := match place
      case Some(InSlot(slot)) => Takes(p, slot, item)
      case Some(InBag(spot)) => Fits(p.free, spot, item)
      case None => false;
  }

  /** The checks of internalMoveItem, with the search that does not look for stacks. */
  method TestMoveItem(p: Belongings, own: ItemId, item: Item, shut: Option<ItemId>) returns (ok: bool)
    ensures ok <==> Receives(p, own, item, shut)
  {
    var place := QueryDestination(p, own, item, false);
    ok := item.look.movable && place.Some? &&
          (place.value.InSlot? || shut.None? || shut.value !in place.value.spot.around);
  }
}
