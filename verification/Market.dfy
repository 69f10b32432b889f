// The market: offers hold gold or items until they are cancelled, accepted or
// expired (src/game/game.cpp:8421-8992, src/io/iomarket.cpp).
module Market {
  import opened Arithmetic
  import opened Sums

  type Guid = nat
  type ItemId = nat
  type OfferId = nat

  const STORE_COIN: ItemId := 22118
  const U16: nat := 0x1_0000

  datatype ItemType = ItemType(tradeable: bool, stackable: bool, stackSize: nat)

  /** Item::items: an id that is missing here has no item type. */
  type Catalog = c: map<ItemId, ItemType> | forall i <- c :: 1 <= c[i].stackSize <= 100 witness map[]

  datatype Stack = Stack(item: ItemId, tier: nat, count: nat, marketable: bool, removable: bool)

  /** A character: bank balance, coins carried, coins on the ground at its feet, its account, its supply
      stash, and the stacks of its depot locker, inbox included. */
  datatype Player = Player(
    bank: nat,
    coins: nat,
    ground: nat,
    account: nat,
    stash: map<ItemId, nat>,
    locker: seq<Stack>
  )

  datatype Offer = Offer(owner: Guid, sell: bool, item: ItemId, tier: nat, amount: nat, price: nat)

  datatype Exit = Cancelled | Accepted | Expired

  /** A row of the query for expired offers, with the offer as it was then. */
  datatype Row = Row(id: OfferId, offer: Offer)

  datatype State = State(
    players: map<Guid, Player>,
    accounts: map<nat, nat>,        // transferable coins
    offers: map<OfferId, Offer>,    // the table market_offers
    nextId: OfferId,                // its auto-increment
    left: map<OfferId, seq<Exit>>,  // how each offer left the table
    pending: seq<Row>               // query results waiting for their callback
  )

  // --------------------------------------------------------------------
  // What there is
  // --------------------------------------------------------------------

  function Gold(p: Player): nat {
    p.bank + p.coins + p.ground
  }

  function StackTotal(l: seq<Stack>, x: ItemId): nat {
    if l == [] then 0 else (if l[0].item == x then l[0].count else 0) + StackTotal(l[1..], x)
  }

  function Stashed(p: Player, x: ItemId): nat {
    if x in p.stash then p.stash[x] else 0
  }

  function Holdings(p: Player, x: ItemId): nat {
    Stashed(p, x) + StackTotal(p.locker, x)
  }

  /** The gold, and the pieces of an item, that an offer holds. */
  function Escrow(o: Offer): nat {
    if o.sell then 0 else o.price * o.amount
  }

  function Pieces(o: Offer, x: ItemId): nat {
    if o.sell && o.item == x then o.amount else 0
  }

  function HoldingsOf(x: ItemId): Player -> nat {
    p => Holdings(p, x)
  }

  function PiecesOf(x: ItemId): Offer -> nat {
    o => Pieces(o, x)
  }

  ghost function TotalGold(s: State): nat {
    Sum(s.players, Gold) + Sum(s.offers, Escrow)
  }

  ghost function InAccounts(accounts: map<nat, nat>): nat {
    Sum(accounts, (n: nat) => n)
  }

  /** Every piece of an item: stash, locker, inbox, account and open sell offers. */
  ghost function TotalItems(s: State, x: ItemId): nat {
    Sum(s.players, HoldingsOf(x)) + (if x == STORE_COIN then InAccounts(s.accounts) else 0) + Sum(s.offers, PiecesOf(x))
  }

  lemma PlayerSet(s: State, g: Guid, p: Player, x: ItemId)
    requires g in s.players
    ensures var t := s.(players := s.players[g := p]);
      TotalGold(t) + Gold(s.players[g]) == TotalGold(s) + Gold(p) &&
      TotalItems(t, x) + Holdings(s.players[g], x) == TotalItems(s, x) + Holdings(p, x)
  {
    SumUpdate(s.players, g, p, Gold);
    SumUpdate(s.players, g, p, HoldingsOf(x));
  }

  lemma OfferSet(s: State, i: OfferId, o: Offer, x: ItemId)
    ensures var t := s.(offers := s.offers[i := o]);
      TotalGold(t) + (if i in s.offers then Escrow(s.offers[i]) else 0) == TotalGold(s) + Escrow(o) &&
      TotalItems(t, x) + (if i in s.offers then Pieces(s.offers[i], x) else 0) == TotalItems(s, x) + Pieces(o, x)
  {
    SumUpdate(s.offers, i, o, Escrow);
    SumUpdate(s.offers, i, o, PiecesOf(x));
  }

  lemma OfferDropped(s: State, i: OfferId, x: ItemId)
    requires i in s.offers
    ensures var t := s.(offers := s.offers - {i});
      TotalGold(t) + Escrow(s.offers[i]) == TotalGold(s) &&
      TotalItems(t, x) + Pieces(s.offers[i], x) == TotalItems(s, x)
  {
    SumRemove(s.offers, i, Escrow);
    SumRemove(s.offers, i, PiecesOf(x));
  }

  lemma AccountSet(s: State, a: nat, n: nat, x: ItemId)
    requires a in s.accounts
    ensures var t := s.(accounts := s.accounts[a := n]);
      TotalGold(t) == TotalGold(s) &&
      TotalItems(t, x) + (if x == STORE_COIN then s.accounts[a] else 0) ==
      TotalItems(s, x) + (if x == STORE_COIN then n else 0)
  {
    SumUpdate(s.accounts, a, n, (n: nat) => n);
  }

  // --------------------------------------------------------------------
  // Pieces of the steps
  // --------------------------------------------------------------------

  /** removeMoney: coins first, then the bank if it may be used. Some of the change may fall on the ground. */
  function Paid(p: Player, amount: nat, useBalance: bool, dropped: nat): Player {
    if p.coins + (if useBalance then p.bank else 0) < amount then p
    else if amount <= p.coins then
      var d := Min(dropped, p.coins - amount);
      p.(coins := p.coins - amount - d, ground := p.ground + d)
    else p.(coins := 0, bank := p.bank - (amount - p.coins))
  }

  /** The stacks that getLockerItemsAndCountById lists. */
  predicate Listed(k: Stack, x: ItemId, tier: nat) {
    k.marketable && k.item == x && k.tier == tier
  }

  datatype Taken = Taken(locker: seq<Stack>, left: nat, failed: bool)

  function Keep(k: Stack, r: Taken): Taken {
    r.(locker := (if k.count > 0 then [k] else []) + r.locker)
  }

  /** The loop of removeOfferItems over the stacks of a stackable item. */
  function TakeStacks(l: seq<Stack>, x: ItemId, tier: nat, need: nat): Taken {
    if l == [] || need == 0 then Taken(l, need, false)
    else if !Listed(l[0], x, tier) then Keep(l[0], TakeStacks(l[1..], x, tier, need))
    else
      var n := Min(need, l[0].count);
      if !l[0].removable then Taken(l, need - n, true)
      else Keep(l[0].(count := l[0].count - n), TakeStacks(l[1..], x, tier, need - n))
  }

  /** The same loop for an item that does not stack; what is left to remove is a 16-bit number. */
  function TakeSingles(l: seq<Stack>, x: ItemId, tier: nat, amount: nat, count: nat, need: nat): Taken {
    if l == [] then Taken(l, need, false)
    else if !Listed(l[0], x, tier) then Keep(l[0], TakeSingles(l[1..], x, tier, amount, count, need))
    else if count + l[0].count > amount then Taken(l, need, false)
    else if !l[0].removable then Taken(l, need, true)
    else TakeSingles(l[1..], x, tier, amount, count + l[0].count, (need + U16 - 1) % U16)
  }

  datatype Removal = Removal(player: Player, ok: bool)

  /** The first part of removeOfferItems: what the stash gives, and what is still missing. */
  function FromStash(p: Player, x: ItemId, amount: nat): (r: (Player, nat))
    ensures Stashed(r.0, x) + amount == Stashed(p, x) + r.1 && r.0.locker == p.locker
  {
    if Stashed(p, x) == 0 then (p, amount)
    else if amount >= p.stash[x] then (p.(stash := p.stash - {x}), amount - p.stash[x])
    else (p.(stash := p.stash[x := p.stash[x] - amount]), 0)
  }

  predicate AnyListed(l: seq<Stack>, x: ItemId, tier: nat) {
    exists i :: 0 <= i < |l| && Listed(l[i], x, tier)
  }

  function RemoveOfferItems(p: Player, stackable: bool, x: ItemId, tier: nat, amount: nat): Removal {
    var (q, need) := FromStash(p, x, amount);
    if need == 0 then Removal(q, true)
    else if !AnyListed(q.locker, x, tier) then Removal(q, false)
    else
      var r := if stackable then TakeStacks(q.locker, x, tier, need)
               else TakeSingles(q.locker, x, tier, amount, 0, need);
      Removal(q.(locker := r.locker), !r.failed && r.left == 0)
  }

  /** The stacks that hand out an amount, none above the given size. */
  function Split(x: ItemId, tier: nat, amount: nat, size: nat): (r: seq<Stack>)
    requires size > 0
    ensures StackTotal(r, x) == amount
    ensures forall i :: 0 <= i < |r| ==> r[i].item == x && r[i].tier == tier && 1 <= r[i].count <= size
  {
    if amount == 0 then [] else
    var n := Min(size, amount);
    [Stack(x, tier, n, true, true)] + Split(x, tier, amount - n, size)
  }

  function StackSize(cat: Catalog, x: ItemId): (n: nat)
    requires x in cat
    ensures n > 0
  {
    if cat[x].stackable then cat[x].stackSize else 1
  }

  function IntoInbox(p: Player, stacks: seq<Stack>): Player {
    p.(locker := p.locker + stacks)
  }

  /** Items bought or returned: store coins go to the account, all else to the inbox. */
  function Deliver(s: State, cat: Catalog, g: Guid, x: ItemId, tier: nat, amount: nat): State
    requires g in s.players && s.players[g].account in s.accounts && x in cat
  {
    var p := s.players[g];
    if x == STORE_COIN then s.(accounts := s.accounts[p.account := s.accounts[p.account] + amount])
    else s.(players := s.players[g := IntoInbox(p, Split(x, tier, amount, StackSize(cat, x)))])
  }

  function Deposit(s: State, g: Guid, gold: nat): State
    requires g in s.players
  {
    s.(players := s.players[g := s.players[g].(bank := s.players[g].bank + gold)])
  }

  /** DELETE FROM market_offers; an offer that is there leaves the table. */
  function Drop(s: State, i: OfferId, how: Exit): State {
    if i !in s.offers then s else
    s.(offers := s.offers - {i}, left := s.left[i := (if i in s.left then s.left[i] else []) + [how]])
  }

  function Insert(s: State, o: Offer): State {
    s.(offers := s.offers[s.nextId := o], nextId := s.nextId + 1)
  }

  // --------------------------------------------------------------------
  // The steps
  // --------------------------------------------------------------------

  /** What the step cannot see: the checks on session, account and limits, a depot locker, whether the other
      player could be loaded, and where change falls. */
  datatype Env = Env(admitted: bool, hasLocker: bool, otherLoaded: bool, dropped: nat)

  predicate AmountAllowed(cat: Catalog, x: ItemId, amount: nat)
    requires x in cat
  {
    amount != 0 && (cat[x].stackable || amount <= 2000) && (!cat[x].stackable || amount <= 64000)
  }

  function Fee(price: nat, amount: nat): nat {
    var calcFee := price / 100 * amount;
    var minFee := Min(100000, calcFee);
    if minFee < 20 then 20 else minFee
  }

  /** Takes the pieces from the seller: store coins from the account, all else from stash and locker. */
  function Collect(s: State, cat: Catalog, g: Guid, x: ItemId, tier: nat, amount: nat): (r: (State, bool))
    requires g in s.players && s.players[g].account in s.accounts && x in cat
  {
    var p := s.players[g];
    if x == STORE_COIN then
      if amount > s.accounts[p.account] then (s, false)
      else (s.(accounts := s.accounts[p.account := s.accounts[p.account] - amount]), true)
    else
      var r := RemoveOfferItems(p, cat[x].stackable, x, tier, amount);
      (s.(players := s.players[g := r.player]), r.ok)
  }

  function Pay(s: State, g: Guid, amount: nat, dropped: nat): State
    requires g in s.players
  {
    s.(players := s.players[g := Paid(s.players[g], amount, true, dropped)])
  }

  predicate Present(s: State, g: Guid) {
    g in s.players && s.players[g].account in s.accounts
  }

  predicate CreateAllowed(s: State, cat: Catalog, env: Env, g: Guid, o: Offer) {
    Present(s, g) && env.admitted && 0 < o.price <= 999999999999 && o.item in cat && cat[o.item].tradeable &&
    AmountAllowed(cat, o.item, o.amount)
  }

  /** playerCreateMarketOffer */
  function Create(s: State, cat: Catalog, env: Env, o: Offer): State {
    if !CreateAllowed(s, cat, env, o.owner, o) then s else
    var p := s.players[o.owner];
    var fee := Fee(o.price, o.amount);
    if o.sell then
      if fee > p.bank + p.coins || !env.hasLocker then s else
      var (t, ok) := Collect(s, cat, o.owner, o.item, o.tier, o.amount);
      if !ok then t else Insert(Pay(t, o.owner, fee, env.dropped), o)
    else
      var totalPrice := o.price * o.amount + fee;
      if totalPrice > p.coins + p.bank then s else Insert(Pay(s, o.owner, totalPrice, env.dropped), o)
  }

  /** playerCancelMarketOffer, for the offer that was looked up. */
  function Cancel(s: State, cat: Catalog, env: Env, g: Guid, i: OfferId): State {
    if !Present(s, g) || !env.admitted || i !in s.offers || s.offers[i].owner != g then s else
    var o := s.offers[i];
    if !o.sell then Drop(Deposit(s, g, o.price * o.amount), i, Cancelled)
    else if o.item !in cat then s
    else Drop(Deliver(s, cat, g, o.item, o.tier, o.amount), i, Cancelled)
  }

  /** The tail of playerAcceptMarketOffer: the offer shrinks or goes. */
  function Shrink(s: State, i: OfferId, amount: nat): State
    requires i in s.offers && amount <= s.offers[i].amount
  {
    if s.offers[i].amount == amount then Drop(s, i, Accepted)
    else s.(offers := s.offers[i := s.offers[i].(amount := s.offers[i].amount - amount)])
  }

  /** The buyer of a sell offer pays from the bank, and with coins for what the bank lacks. */
  function Buy(p: Player, price: nat, dropped: nat): Player
    requires price <= p.bank + p.coins
  {
    if price <= p.bank then p.(bank := p.bank - price)
    else Paid(p.(bank := 0), price - p.bank, false, dropped)
  }

  /** What accepting needs before the two kinds of offer part. */
  predicate AcceptAllowed(s: State, cat: Catalog, env: Env, g: Guid, i: OfferId, amount: nat) {
    Present(s, g) && env.admitted && i in s.offers && s.offers[i].item in cat &&
    AmountAllowed(cat, s.offers[i].item, amount) && amount <= s.offers[i].amount &&
    Present(s, s.offers[i].owner) && env.otherLoaded && g != s.offers[i].owner &&
    s.players[g].account != s.players[s.offers[i].owner].account
  }

  /** Accepting a buy offer: g sells to its owner, who has paid already. */
  function SellTo(s: State, cat: Catalog, env: Env, g: Guid, i: OfferId, amount: nat): State
    requires AcceptAllowed(s, cat, env, g, i, amount)
  {
    var o := s.offers[i];
    if !env.hasLocker then s else
    var (t, ok) := Collect(s, cat, g, o.item, o.tier, amount);
    if !ok then t
    else Shrink(Deliver(Deposit(t, g, o.price * amount), cat, o.owner, o.item, o.tier, amount), i, amount)
  }

  /** Accepting a sell offer: g buys from its owner, who has handed the pieces in already. */
  function BuyFrom(s: State, cat: Catalog, env: Env, g: Guid, i: OfferId, amount: nat): State
    requires AcceptAllowed(s, cat, env, g, i, amount)
  {
    var o, p := s.offers[i], s.players[g];
    var price := o.price * amount;
    if price > p.bank + p.coins then s else
    var t := s.(players := s.players[g := Buy(p, price, env.dropped)]);
    Shrink(Deposit(Deliver(t, cat, g, o.item, o.tier, amount), o.owner, price), i, amount)
  }

  /** playerAcceptMarketOffer, for the offer that was looked up. */
  function Accept(s: State, cat: Catalog, env: Env, g: Guid, i: OfferId, amount: nat): State {
    if !AcceptAllowed(s, cat, env, g, i, amount) then s
    else if s.offers[i].sell then BuyFrom(s, cat, env, g, i, amount)
    else SellTo(s, cat, env, g, i, amount)
  }

  /** checkExpiredOffers: the query, whose callback comes later. */
  function Snapshot(s: State, expired: seq<OfferId>): State {
    s.(pending := s.pending + RowsOf(s.offers, expired))
  }

  function RowsOf(offers: map<OfferId, Offer>, ids: seq<OfferId>): seq<Row> {
    if ids == [] then []
    else (if ids[0] in offers then [Row(ids[0], offers[ids[0]])] else []) + RowsOf(offers, ids[1..])
  }

  /** One turn of the loop in processExpiredOffers. */
  function Expire(s: State, cat: Catalog, env: Env, row: Row): State {
    if row.id !in s.offers then s else
    var t := Drop(s, row.id, Expired);
    var o := row.offer;
    if o.owner !in t.players then t
    else if !o.sell then Deposit(t, o.owner, o.price * o.amount)
    else if o.item !in cat || !env.otherLoaded then t
    else
      var size := if cat[o.item].stackable then 100 else 1;
      t.(players := t.players[o.owner := IntoInbox(t.players[o.owner], Split(o.item, o.tier, o.amount, size))])
  }

  // --------------------------------------------------------------------
  // Gold and items of the pieces
  // --------------------------------------------------------------------

  lemma {:induction false} StackConcat(a: seq<Stack>, b: seq<Stack>, x: ItemId)
    ensures StackTotal(a + b, x) == StackTotal(a, x) + StackTotal(b, x)
  {
    if a == [] {
      assert a + b == b;
    } else {
      assert (a + b)[1..] == a[1..] + b;
      StackConcat(a[1..], b, x);
    }
  }

  lemma {:induction false} OthersInSplit(x: ItemId, tier: nat, amount: nat, size: nat, y: ItemId)
    requires size > 0 && x != y
    ensures StackTotal(Split(x, tier, amount, size), y) == 0
  {
    if amount > 0 {
      OthersInSplit(x, tier, amount - Min(size, amount), size, y);
    }
  }

  /** Nothing else is touched, and nothing appears; without a failure exactly need - left pieces go. */
  lemma {:induction false} TakeStacksTotal(l: seq<Stack>, x: ItemId, tier: nat, need: nat, y: ItemId)
    ensures var r := TakeStacks(l, x, tier, need);
      r.left <= need && StackTotal(r.locker, y) <= StackTotal(l, y) &&
      (y != x ==> StackTotal(r.locker, y) == StackTotal(l, y)) &&
      (y == x && !r.failed ==> StackTotal(r.locker, y) + need == StackTotal(l, y) + r.left)
  {
    if l != [] && need > 0 {
      if !Listed(l[0], x, tier) {
        TakeStacksTotal(l[1..], x, tier, need, y);
        KeepTotal(l[0], TakeStacks(l[1..], x, tier, need), y);
      } else {
        var n := Min(need, l[0].count);
        TakeStacksTotal(l[1..], x, tier, need - n, y);
        KeepTotal(l[0].(count := l[0].count - n), TakeStacks(l[1..], x, tier, need - n), y);
      }
    }
  }

  lemma KeepTotal(k: Stack, r: Taken, y: ItemId)
    ensures StackTotal(Keep(k, r).locker, y) == (if k.item == y then k.count else 0) + StackTotal(r.locker, y)
  {
    assert ([k] + r.locker)[1..] == r.locker;
    assert [] + r.locker == r.locker;
  }

  /** Items that do not stack are single pieces. */
  ghost predicate Single(l: seq<Stack>, x: ItemId) {
    forall i :: 0 <= i < |l| && l[i].item == x ==> l[i].count == 1
  }

  lemma {:induction false} TakeSinglesTotal(l: seq<Stack>, x: ItemId, tier: nat, amount: nat, count: nat, need: nat,
                                            y: ItemId)
    requires count <= amount < U16 && need < U16
    ensures var r := TakeSingles(l, x, tier, amount, count, need);
      r.left < U16 && StackTotal(r.locker, y) <= StackTotal(l, y) &&
      (y != x ==> StackTotal(r.locker, y) == StackTotal(l, y)) &&
      (y == x && Single(l, x) && !r.failed ==>
        var gone := StackTotal(l, y) - StackTotal(r.locker, y);
        gone <= amount - count && (r.left + gone == need || r.left + gone == need + U16))
  {
    if l != [] {
      assert Single(l, x) ==> Single(l[1..], x);
      if !Listed(l[0], x, tier) {
        TakeSinglesTotal(l[1..], x, tier, amount, count, need, y);
        KeepTotal(l[0], TakeSingles(l[1..], x, tier, amount, count, need), y);
      } else if count + l[0].count <= amount && l[0].removable {
        TakeSinglesTotal(l[1..], x, tier, amount, count + l[0].count, (need + U16 - 1) % U16, y);
      }
    }
  }

  /** removeOfferItems: true means exactly the amount is gone; whatever it says, nothing appears. */
  lemma RemovalTotal(p: Player, stackable: bool, x: ItemId, tier: nat, amount: nat, y: ItemId)
    requires amount < U16
    ensures var r := RemoveOfferItems(p, stackable, x, tier, amount);
      Gold(r.player) == Gold(p) && r.player.account == p.account && Holdings(r.player, y) <= Holdings(p, y) &&
      (y != x ==> Holdings(r.player, y) == Holdings(p, y)) &&
      (y == x && r.ok && (stackable || Single(p.locker, x)) ==> Holdings(r.player, y) + amount == Holdings(p, y))
  {
    hide TakeStacks, TakeSingles, StackTotal, AnyListed, Single;
    var (q, need) := FromStash(p, x, amount);
    if stackable {
      TakeStacksTotal(q.locker, x, tier, need, y);
    } else {
      TakeSinglesTotal(q.locker, x, tier, amount, 0, need, y);
    }
  }

  lemma DeliverTotal(s: State, cat: Catalog, g: Guid, x: ItemId, tier: nat, amount: nat, y: ItemId)
    requires Present(s, g) && x in cat
    ensures var t := Deliver(s, cat, g, x, tier, amount);
      TotalGold(t) == TotalGold(s) && TotalItems(t, y) == TotalItems(s, y) + (if y == x then amount else 0)
  {
    var p := s.players[g];
    if x == STORE_COIN {
      AccountSet(s, p.account, s.accounts[p.account] + amount, y);
    } else {
      InboxTotal(s, g, x, tier, amount, StackSize(cat, x), y);
    }
  }

  lemma InboxTotal(s: State, g: Guid, x: ItemId, tier: nat, amount: nat, size: nat, y: ItemId)
    requires g in s.players && size > 0
    ensures var t := s.(players := s.players[g := IntoInbox(s.players[g], Split(x, tier, amount, size))]);
      TotalGold(t) == TotalGold(s) && TotalItems(t, y) == TotalItems(s, y) + (if y == x then amount else 0)
  {
    var p := s.players[g];
    var stacks := Split(x, tier, amount, size);
    StackConcat(p.locker, stacks, y);
    if y != x {
      OthersInSplit(x, tier, amount, size, y);
    }
    PlayerSet(s, g, IntoInbox(p, stacks), y);
  }

  lemma CollectTotal(s: State, cat: Catalog, g: Guid, x: ItemId, tier: nat, amount: nat, y: ItemId)
    requires Present(s, g) && x in cat && amount < U16
    ensures var (t, ok) := Collect(s, cat, g, x, tier, amount);
      TotalGold(t) == TotalGold(s) && TotalItems(t, y) <= TotalItems(s, y) &&
      (y != x ==> TotalItems(t, y) == TotalItems(s, y)) &&
      (y == x && ok && Whole(s, cat, g, x) ==> TotalItems(t, y) + amount == TotalItems(s, y))
    ensures var (t, ok) := Collect(s, cat, g, x, tier, amount);
      t.players.Keys == s.players.Keys && Present(t, g) && t.players[g].bank == s.players[g].bank &&
      t.players[g].coins == s.players[g].coins && t.players[g].ground == s.players[g].ground &&
      t.players[g].account == s.players[g].account && t.accounts.Keys == s.accounts.Keys
  {
    hide TotalGold, TotalItems, StackTotal, Single, TakeStacks, TakeSingles;
    var p := s.players[g];
    if x == STORE_COIN {
      if amount <= s.accounts[p.account] {
        AccountSet(s, p.account, s.accounts[p.account] - amount, y);
      }
    } else {
      RemovalTotal(p, cat[x].stackable, x, tier, amount, y);
      PlayerSet(s, g, RemoveOfferItems(p, cat[x].stackable, x, tier, amount).player, y);
    }
  }

  /** The item stacks, or its pieces are single, as items that do not stack are. */
  ghost predicate Whole(s: State, cat: Catalog, g: Guid, x: ItemId) {
    x in cat && g in s.players && (cat[x].stackable || x == STORE_COIN || Single(s.players[g].locker, x))
  }

  lemma DepositTotal(s: State, g: Guid, gold: nat, y: ItemId)
    requires g in s.players
    ensures TotalGold(Deposit(s, g, gold)) == TotalGold(s) + gold
    ensures TotalItems(Deposit(s, g, gold), y) == TotalItems(s, y)
  {
    PlayerSet(s, g, s.players[g].(bank := s.players[g].bank + gold), y);
  }

  lemma PayTotal(s: State, g: Guid, amount: nat, dropped: nat, y: ItemId)
    requires g in s.players && amount <= s.players[g].bank + s.players[g].coins
    ensures TotalGold(Pay(s, g, amount, dropped)) + amount == TotalGold(s)
    ensures TotalItems(Pay(s, g, amount, dropped), y) == TotalItems(s, y)
  {
    PlayerSet(s, g, Paid(s.players[g], amount, true, dropped), y);
  }

  lemma DropTotal(s: State, i: OfferId, how: Exit, y: ItemId)
    requires i in s.offers
    ensures TotalGold(Drop(s, i, how)) + Escrow(s.offers[i]) == TotalGold(s)
    ensures TotalItems(Drop(s, i, how), y) + Pieces(s.offers[i], y) == TotalItems(s, y)
  {
    OfferDropped(s, i, y);
  }

  lemma ShrinkTotal(s: State, i: OfferId, amount: nat, y: ItemId)
    requires i in s.offers && amount <= s.offers[i].amount
    ensures var o := s.offers[i].(amount := amount);
      TotalGold(Shrink(s, i, amount)) + Escrow(o) == TotalGold(s) &&
      TotalItems(Shrink(s, i, amount), y) + Pieces(o, y) == TotalItems(s, y)
  {
    var o := s.offers[i];
    if o.amount == amount {
      DropTotal(s, i, Accepted, y);
    } else {
      OfferSet(s, i, o.(amount := o.amount - amount), y);
      Distribute(o.amount - amount, amount, o.price);
    }
  }

  // --------------------------------------------------------------------
  // Each step
  // --------------------------------------------------------------------

  /** Creating an offer costs the fee and nothing else; items never multiply, and a created offer holds
      exactly the pieces that were taken. */
  lemma CreateTotals(s: State, cat: Catalog, env: Env, o: Offer, y: ItemId)
    requires s.nextId !in s.offers
    ensures var t := Create(s, cat, env, o);
      var created := t.nextId != s.nextId;
      TotalGold(t) + (if created then Fee(o.price, o.amount) else 0) == TotalGold(s) &&
      (!created ==> TotalItems(t, y) <= TotalItems(s, y)) &&
      (created && (y != o.item || Whole(s, cat, o.owner, y)) ==> TotalItems(t, y) == TotalItems(s, y)) &&
      (created ==> t.offers == s.offers[s.nextId := o])
  {
    if CreateAllowed(s, cat, env, o.owner, o) {
      if o.sell {
        CreateSellTotals(s, cat, env, o, y);
      } else {
        CreateBuyTotals(s, env, o, y);
      }
    }
  }

  lemma CreateSellTotals(s: State, cat: Catalog, env: Env, o: Offer, y: ItemId)
    requires s.nextId !in s.offers && CreateAllowed(s, cat, env, o.owner, o) && o.sell
    ensures var fee := Fee(o.price, o.amount);
      var (t, ok) := Collect(s, cat, o.owner, o.item, o.tier, o.amount);
      TotalGold(t) == TotalGold(s) && TotalItems(t, y) <= TotalItems(s, y) &&
      t.nextId == s.nextId && t.offers == s.offers &&
      o.owner in t.players &&
      (ok && fee <= s.players[o.owner].bank + s.players[o.owner].coins ==>
        var u := Insert(Pay(t, o.owner, fee, env.dropped), o);
        TotalGold(u) + fee == TotalGold(s) &&
        (y != o.item || Whole(s, cat, o.owner, y) ==> TotalItems(u, y) == TotalItems(s, y)))
  {
    hide Collect, Fee, StackTotal, Whole;
    var fee := Fee(o.price, o.amount);
    CollectChanges(s, cat, o.owner, o.item, o.tier, o.amount);
    CollectTotal(s, cat, o.owner, o.item, o.tier, o.amount, y);
    var (t, ok) := Collect(s, cat, o.owner, o.item, o.tier, o.amount);
    if ok && fee <= s.players[o.owner].bank + s.players[o.owner].coins {
      PayTotal(t, o.owner, fee, env.dropped, y);
      OfferSet(Pay(t, o.owner, fee, env.dropped), s.nextId, o, y);
    }
  }

  lemma CreateBuyTotals(s: State, env: Env, o: Offer, y: ItemId)
    requires s.nextId !in s.offers && o.owner in s.players && !o.sell
    ensures var price := o.price * o.amount + Fee(o.price, o.amount);
      price <= s.players[o.owner].coins + s.players[o.owner].bank ==>
        var u := Insert(Pay(s, o.owner, price, env.dropped), o);
        TotalGold(u) + Fee(o.price, o.amount) == TotalGold(s) && TotalItems(u, y) == TotalItems(s, y)
  {
    var price := o.price * o.amount + Fee(o.price, o.amount);
    if price <= s.players[o.owner].coins + s.players[o.owner].bank {
      PayTotal(s, o.owner, price, env.dropped, y);
      OfferSet(Pay(s, o.owner, price, env.dropped), s.nextId, o, y);
    }
  }

  /** Cancelling gives back exactly what the offer held. */
  lemma CancelTotals(s: State, cat: Catalog, env: Env, g: Guid, i: OfferId, y: ItemId)
    ensures var t := Cancel(s, cat, env, g, i);
      TotalGold(t) == TotalGold(s) && TotalItems(t, y) == TotalItems(s, y)
  {
    if Present(s, g) && env.admitted && i in s.offers && s.offers[i].owner == g {
      var o := s.offers[i];
      if !o.sell {
        DepositTotal(s, g, o.price * o.amount, y);
        DropTotal(Deposit(s, g, o.price * o.amount), i, Cancelled, y);
      } else if o.item in cat {
        DeliverTotal(s, cat, g, o.item, o.tier, o.amount, y);
        DropTotal(Deliver(s, cat, g, o.item, o.tier, o.amount), i, Cancelled, y);
      }
    }
  }

  /** A trade moves gold and items between the two and out of the offer, and loses none. */
  lemma AcceptTotals(s: State, cat: Catalog, env: Env, g: Guid, i: OfferId, amount: nat, y: ItemId)
    ensures var t := Accept(s, cat, env, g, i, amount);
      TotalGold(t) == TotalGold(s) && (t.offers != s.offers ==> i in s.offers) &&
      (i in s.offers && (y != s.offers[i].item || Whole(s, cat, g, y)) ==>
        TotalItems(t, y) <= TotalItems(s, y) && (t.offers != s.offers ==> TotalItems(t, y) == TotalItems(s, y)))
  {
    if AcceptAllowed(s, cat, env, g, i, amount) {
      if s.offers[i].sell {
        BuyFromTotals(s, cat, env, g, i, amount, y);
      } else {
        SellToTotals(s, cat, env, g, i, amount, y);
      }
    }
  }

  lemma SellToTotals(s: State, cat: Catalog, env: Env, g: Guid, i: OfferId, amount: nat, y: ItemId)
    requires AcceptAllowed(s, cat, env, g, i, amount) && !s.offers[i].sell
    ensures var t := SellTo(s, cat, env, g, i, amount);
      TotalGold(t) == TotalGold(s) &&
      (y != s.offers[i].item || Whole(s, cat, g, y) ==>
        TotalItems(t, y) <= TotalItems(s, y) && (t.offers != s.offers ==> TotalItems(t, y) == TotalItems(s, y)))
  {
    var o := s.offers[i];
    if env.hasLocker {
      CollectTotal(s, cat, g, o.item, o.tier, amount, y);
      var (t, ok) := Collect(s, cat, g, o.item, o.tier, amount);
      if ok {
        PassOnTotals(t, cat, g, i, amount, y);
      }
    }
  }

  /** The seller is paid, the buyer gets the pieces, and the offer shrinks by both. */
  lemma PassOnTotals(t: State, cat: Catalog, g: Guid, i: OfferId, amount: nat, y: ItemId)
    requires g in t.players && i in t.offers && t.offers[i].item in cat && !t.offers[i].sell
    requires amount <= t.offers[i].amount && Present(t, t.offers[i].owner)
    ensures var o := t.offers[i];
      var u := Shrink(Deliver(Deposit(t, g, o.price * amount), cat, o.owner, o.item, o.tier, amount), i, amount);
      TotalGold(u) == TotalGold(t) && TotalItems(u, y) == TotalItems(t, y) + (if y == o.item then amount else 0)
  {
    var o := t.offers[i];
    var u := Deposit(t, g, o.price * amount);
    DepositTotal(t, g, o.price * amount, y);
    DeliverTotal(u, cat, o.owner, o.item, o.tier, amount, y);
    ShrinkTotal(Deliver(u, cat, o.owner, o.item, o.tier, amount), i, amount, y);
  }

  lemma BuyFromTotals(s: State, cat: Catalog, env: Env, g: Guid, i: OfferId, amount: nat, y: ItemId)
    requires AcceptAllowed(s, cat, env, g, i, amount) && s.offers[i].sell
    ensures var t := BuyFrom(s, cat, env, g, i, amount);
      TotalGold(t) == TotalGold(s) && TotalItems(t, y) == TotalItems(s, y)
  {
    hide TotalGold, TotalItems, StackTotal;
    var o, p := s.offers[i], s.players[g];
    var price := o.price * amount;
    if price <= p.bank + p.coins {
      var paid := Buy(p, price, env.dropped);
      PlayerSet(s, g, paid, y);
      var t := s.(players := s.players[g := paid]);
      DeliverTotal(t, cat, g, o.item, o.tier, amount, y);
      var u := Deliver(t, cat, g, o.item, o.tier, amount);
      DepositTotal(u, o.owner, price, y);
      ShrinkTotal(Deposit(u, o.owner, price), i, amount, y);
    }
  }

  lemma ExpireTotals(s: State, cat: Catalog, env: Env, row: Row, y: ItemId)
    requires row.id in s.offers && row.offer.owner in s.players
    ensures var t, now, o := Expire(s, cat, env, row), s.offers[row.id], row.offer;
      TotalGold(t) + Escrow(now) == TotalGold(s) + Escrow(o) &&
      TotalItems(t, y) + Pieces(now, y) ==
        TotalItems(s, y) + (if o.item in cat && env.otherLoaded then Pieces(o, y) else 0)
  {
    var t, o := Drop(s, row.id, Expired), row.offer;
    DropTotal(s, row.id, Expired, y);
    if !o.sell {
      DepositTotal(t, o.owner, o.price * o.amount, y);
    } else if o.item in cat && env.otherLoaded {
      InboxTotal(t, o.owner, o.item, o.tier, o.amount, if cat[o.item].stackable then 100 else 1, y);
    }
  }

  // --------------------------------------------------------------------
  // Who gets what
  // --------------------------------------------------------------------

  /** What a player can sell of an item: stash, locker, inbox, and the account for store coins. */
  function Owned(s: State, g: Guid, x: ItemId): nat
    requires Present(s, g)
  {
    Holdings(s.players[g], x) + if x == STORE_COIN then s.accounts[s.players[g].account] else 0
  }

  /** Only g, and the account of g, may have changed. */
  ghost predicate OnlyBy(s: State, t: State, g: Guid) {
    Present(s, g) && Present(t, g) && t.players[g].account == s.players[g].account &&
    t.players.Keys == s.players.Keys && (forall h <- s.players :: h != g ==> t.players[h] == s.players[h]) &&
    t.accounts.Keys == s.accounts.Keys &&
    forall a <- s.accounts :: a != s.players[g].account ==> t.accounts[a] == s.accounts[a]
  }

  lemma DeliverParty(s: State, cat: Catalog, g: Guid, x: ItemId, tier: nat, amount: nat, y: ItemId)
    requires Present(s, g) && x in cat
    ensures var t := Deliver(s, cat, g, x, tier, amount);
      OnlyBy(s, t, g) && Gold(t.players[g]) == Gold(s.players[g]) &&
      Owned(t, g, y) == Owned(s, g, y) + if y == x then amount else 0
  {
    if x != STORE_COIN {
      var p, stacks := s.players[g], Split(x, tier, amount, StackSize(cat, x));
      StackConcat(p.locker, stacks, y);
      if y != x {
        OthersInSplit(x, tier, amount, StackSize(cat, x), y);
      }
    }
  }

  lemma CollectParty(s: State, cat: Catalog, g: Guid, x: ItemId, tier: nat, amount: nat, y: ItemId)
    requires Present(s, g) && x in cat && amount < U16
    ensures var (t, ok) := Collect(s, cat, g, x, tier, amount);
      OnlyBy(s, t, g) && t.offers == s.offers && t.nextId == s.nextId && Gold(t.players[g]) == Gold(s.players[g]) &&
      t.players[g].bank + t.players[g].coins == s.players[g].bank + s.players[g].coins &&
      Owned(t, g, y) <= Owned(s, g, y) &&
      (y != x ==> Owned(t, g, y) == Owned(s, g, y)) &&
      (y == x && ok && Whole(s, cat, g, x) ==> Owned(t, g, y) + amount == Owned(s, g, y))
  {
    hide StackTotal, TakeStacks, TakeSingles, Single;
    if x != STORE_COIN {
      RemovalTotal(s.players[g], cat[x].stackable, x, tier, amount, y);
    }
  }

  lemma PayParty(s: State, g: Guid, amount: nat, dropped: nat, o: Offer, y: ItemId)
    requires Present(s, g) && amount <= s.players[g].bank + s.players[g].coins
    ensures var t := Insert(Pay(s, g, amount, dropped), o);
      OnlyBy(s, t, g) && Gold(t.players[g]) + amount == Gold(s.players[g]) && Owned(t, g, y) == Owned(s, g, y)
  {
    hide StackTotal;
  }

  lemma OnlyByTwice(s: State, t: State, u: State, g: Guid)
    requires OnlyBy(s, t, g) && OnlyBy(t, u, g)
    ensures OnlyBy(s, u, g)
  {
  }

  /** The maker of an offer, and nobody else, pays the fee and what the offer holds. */
  lemma CreateParty(s: State, cat: Catalog, env: Env, o: Offer, y: ItemId)
    ensures var t := Create(s, cat, env, o);
      t.nextId != s.nextId ==>
        OnlyBy(s, t, o.owner) &&
        Gold(t.players[o.owner]) + Fee(o.price, o.amount) + Escrow(o) == Gold(s.players[o.owner]) &&
        (y != o.item || !o.sell || Whole(s, cat, o.owner, y) ==>
          Owned(t, o.owner, y) + Pieces(o, y) == Owned(s, o.owner, y))
  {
    hide StackTotal, Fee, Collect, Whole, OnlyBy, Pay, Insert, Owned, AmountAllowed;
    if CreateAllowed(s, cat, env, o.owner, o) {
      var fee, p := Fee(o.price, o.amount), s.players[o.owner];
      if o.sell {
        AllowedAmount(cat, o);
        CollectParty(s, cat, o.owner, o.item, o.tier, o.amount, y);
        var (t, ok) := Collect(s, cat, o.owner, o.item, o.tier, o.amount);
        OnlyByIsPresent(s, t, o.owner);
        if fee <= p.bank + p.coins {
          PayParty(t, o.owner, fee, env.dropped, o, y);
          OnlyByTwice(s, t, Insert(Pay(t, o.owner, fee, env.dropped), o), o.owner);
        }
      } else if o.price * o.amount + fee <= p.coins + p.bank {
        PayParty(s, o.owner, o.price * o.amount + fee, env.dropped, o, y);
      }
    }
  }

  lemma AllowedAmount(cat: Catalog, o: Offer)
    requires o.item in cat && AmountAllowed(cat, o.item, o.amount)
    ensures o.amount < U16
  {
  }

  lemma OnlyByIsPresent(s: State, t: State, g: Guid)
    requires OnlyBy(s, t, g)
    ensures Present(s, g) && Present(t, g)
  {
  }

  /** Cancelling gives the owner, and nobody else, what the offer held. */
  lemma CancelParty(s: State, cat: Catalog, env: Env, g: Guid, i: OfferId, y: ItemId)
    ensures var t := Cancel(s, cat, env, g, i);
      t.offers != s.offers ==>
        i in s.offers && s.offers[i].owner == g && OnlyBy(s, t, g) &&
        Gold(t.players[g]) == Gold(s.players[g]) + Escrow(s.offers[i]) &&
        Owned(t, g, y) == Owned(s, g, y) + Pieces(s.offers[i], y)
  {
    hide StackTotal, Deliver;
    if Present(s, g) && i in s.offers && s.offers[i].sell && s.offers[i].item in cat {
      DeliverParty(s, cat, g, s.offers[i].item, s.offers[i].tier, s.offers[i].amount, y);
    }
  }

  lemma Untouched(s: State, t: State, g: Guid, h: Guid, y: ItemId)
    requires OnlyBy(s, t, g) && Present(s, h) && h != g && s.players[h].account != s.players[g].account
    ensures Present(t, h) && t.players[h] == s.players[h] && Owned(t, h, y) == Owned(s, h, y)
  {
  }

  lemma DepositParty(s: State, g: Guid, gold: nat, y: ItemId)
    requires Present(s, g)
    ensures var t := Deposit(s, g, gold);
      OnlyBy(s, t, g) && Gold(t.players[g]) == Gold(s.players[g]) + gold && Owned(t, g, y) == Owned(s, g, y)
  {
  }

  /** Between the two states g and h may have changed, with these changes to their gold and to item y. */
  ghost predicate Traded(s: State, t: State, g: Guid, h: Guid, y: ItemId, goldG: int, goldH: int, itemsG: int,
                         itemsH: int)
  {
    Present(s, g) && Present(t, g) && Present(s, h) && Present(t, h) &&
    Gold(t.players[g]) == Gold(s.players[g]) + goldG && Gold(t.players[h]) == Gold(s.players[h]) + goldH &&
    Owned(t, g, y) == Owned(s, g, y) + itemsG && Owned(t, h, y) == Owned(s, h, y) + itemsH &&
    forall k <- s.players :: k != g && k != h ==> k in t.players && t.players[k] == s.players[k]
  }

  /** First g changes alone, then h. */
  lemma InTurn(s: State, t: State, u: State, g: Guid, h: Guid, y: ItemId)
    requires OnlyBy(s, t, g) && OnlyBy(t, u, h)
    requires Present(s, h) && g != h && s.players[g].account != s.players[h].account
    ensures Traded(s, u, g, h, y, Gold(t.players[g]) - Gold(s.players[g]), Gold(u.players[h]) - Gold(s.players[h]),
              Owned(t, g, y) - Owned(s, g, y), Owned(u, h, y) - Owned(s, h, y))
    ensures Present(t, h) && Gold(t.players[h]) == Gold(s.players[h]) && Owned(t, h, y) == Owned(s, h, y)
  {
    hide Owned;
    Untouched(s, t, g, h, y);
    Untouched(t, u, h, g, y);
  }

  lemma ShrinkParties(s: State, u: State, i: OfferId, n: nat, g: Guid, h: Guid, y: ItemId, a: int, b: int, c: int,
                      d: int)
    requires i in u.offers && n <= u.offers[i].amount && Traded(s, u, g, h, y, a, b, c, d)
    ensures Traded(s, Shrink(u, i, n), g, h, y, a, b, c, d)
  {
    hide Holdings, Gold;
  }

  /** A buy offer is filled: g gets the gold it holds and gives the pieces, its owner gets the pieces. */
  lemma SellToParties(s: State, cat: Catalog, env: Env, g: Guid, i: OfferId, amount: nat, y: ItemId)
    requires AcceptAllowed(s, cat, env, g, i, amount) && !s.offers[i].sell
    requires y != s.offers[i].item || Whole(s, cat, g, y)
    ensures var t, o := SellTo(s, cat, env, g, i, amount), s.offers[i];
      var pieces := if y == o.item then amount else 0;
      t.offers != s.offers ==> Traded(s, t, g, o.owner, y, o.price * amount, 0, -pieces, pieces)
  {
    hide Collect, Deposit, Deliver, Shrink, OnlyBy, Owned, Gold, Traded, Whole;
    var o := s.offers[i];
    var pieces := if y == o.item then amount else 0;
    AllowedAmount(cat, o.(amount := amount));
    CollectParty(s, cat, g, o.item, o.tier, amount, y);
    var (t, ok) := Collect(s, cat, g, o.item, o.tier, amount);
    if env.hasLocker && ok {
      OnlyByIsPresent(s, t, g);
      DepositParty(t, g, o.price * amount, y);
      var u := Deposit(t, g, o.price * amount);
      OnlyByTwice(s, t, u, g);
      Untouched(s, u, g, o.owner, y);
      DeliverParty(u, cat, o.owner, o.item, o.tier, amount, y);
      var v := Deliver(u, cat, o.owner, o.item, o.tier, amount);
      InTurn(s, u, v, g, o.owner, y);
      SameOffers(t, cat, g, o.price * amount, o.owner, o.item, o.tier, amount);
      ShrinkParties(s, v, i, amount, g, o.owner, y, o.price * amount, 0, -pieces, pieces);
    }
  }

  lemma SameOffers(s: State, cat: Catalog, g: Guid, gold: nat, h: Guid, x: ItemId, tier: nat, amount: nat)
    requires Present(s, g) && Present(Deposit(s, g, gold), h) && x in cat
    ensures Deliver(Deposit(s, g, gold), cat, h, x, tier, amount).offers == s.offers
  {
    hide Split;
  }

  lemma BuyParty(s: State, cat: Catalog, g: Guid, price: nat, dropped: nat, x: ItemId, tier: nat, amount: nat,
                 y: ItemId)
    requires Present(s, g) && price <= s.players[g].bank + s.players[g].coins && x in cat
    ensures var t := s.(players := s.players[g := Buy(s.players[g], price, dropped)]);
      Present(t, g) && var u := Deliver(t, cat, g, x, tier, amount);
      OnlyBy(s, u, g) && u.offers == s.offers && Gold(u.players[g]) + price == Gold(s.players[g]) &&
      Owned(u, g, y) == Owned(s, g, y) + if y == x then amount else 0
  {
    hide StackTotal, Split, Deliver;
    var t := s.(players := s.players[g := Buy(s.players[g], price, dropped)]);
    DeliverParty(t, cat, g, x, tier, amount, y);
    DeliverChanges(t, cat, g, x, tier, amount);
    assert OnlyBy(s, t, g);
    OnlyByTwice(s, t, Deliver(t, cat, g, x, tier, amount), g);
  }

  /** A sell offer is bought from: g pays and gets the pieces it holds, its owner gets the gold. */
  lemma BuyFromParties(s: State, cat: Catalog, env: Env, g: Guid, i: OfferId, amount: nat, y: ItemId)
    requires AcceptAllowed(s, cat, env, g, i, amount) && s.offers[i].sell
    ensures var t, o := BuyFrom(s, cat, env, g, i, amount), s.offers[i];
      var price, pieces := o.price * amount, if y == o.item then amount else 0;
      t.offers != s.offers ==> Traded(s, t, g, o.owner, y, -price, price, pieces, 0)
  {
    hide Deposit, Deliver, Shrink, OnlyBy, Owned, Gold, Traded, Buy;
    var o, p := s.offers[i], s.players[g];
    var price, pieces := o.price * amount, if y == o.item then amount else 0;
    if price <= p.bank + p.coins {
      BuyParty(s, cat, g, price, env.dropped, o.item, o.tier, amount, y);
      var t := s.(players := s.players[g := Buy(p, price, env.dropped)]);
      var u := Deliver(t, cat, g, o.item, o.tier, amount);
      Untouched(s, u, g, o.owner, y);
      DepositParty(u, o.owner, price, y);
      InTurn(s, u, Deposit(u, o.owner, price), g, o.owner, y);
      assert Deposit(u, o.owner, price).offers == s.offers by {
        DepositOffers(u, o.owner, price);
      }
      ShrinkParties(s, Deposit(u, o.owner, price), i, amount, g, o.owner, y, -price, price, pieces, 0);
    }
  }

  lemma DepositOffers(s: State, g: Guid, gold: nat)
    requires g in s.players
    ensures Deposit(s, g, gold).offers == s.offers
  {
  }

  /** An acceptance that goes through trades the price against the pieces, between these two and nobody else. */
  lemma AcceptParties(s: State, cat: Catalog, env: Env, g: Guid, i: OfferId, amount: nat, y: ItemId)
    requires i in s.offers && (s.offers[i].sell || y != s.offers[i].item || Whole(s, cat, g, y))
    ensures var t, o := Accept(s, cat, env, g, i, amount), s.offers[i];
      var price, pieces := o.price * amount, if y == o.item then amount else 0;
      t.offers != s.offers ==>
        if o.sell then Traded(s, t, g, o.owner, y, -price, price, pieces, 0)
        else Traded(s, t, g, o.owner, y, price, 0, -pieces, pieces)
  {
    hide AcceptAllowed, BuyFrom, SellTo, Traded, Whole;
    if AcceptAllowed(s, cat, env, g, i, amount) {
      if s.offers[i].sell {
        BuyFromParties(s, cat, env, g, i, amount, y);
      } else {
        SellToParties(s, cat, env, g, i, amount, y);
      }
    }
  }

  /** A callback gives the owner, and nobody else, what the row of the query says; the items only if the owner
      could be loaded. */
  lemma ExpireParty(s: State, cat: Catalog, env: Env, row: Row, y: ItemId)
    requires row.id in s.offers && Present(s, row.offer.owner)
    ensures var t, o := Expire(s, cat, env, row), row.offer;
      OnlyBy(s, t, o.owner) && Gold(t.players[o.owner]) == Gold(s.players[o.owner]) + Escrow(o) &&
      Owned(t, o.owner, y) == Owned(s, o.owner, y) + if o.item in cat && env.otherLoaded then Pieces(o, y) else 0
  {
    hide StackTotal, Split;
    var o := row.offer;
    if o.sell && o.item in cat && env.otherLoaded {
      var size := if cat[o.item].stackable then 100 else 1;
      StackConcat(s.players[o.owner].locker, Split(o.item, o.tier, o.amount, size), y);
      if y != o.item {
        OthersInSplit(o.item, o.tier, o.amount, size, y);
      }
    }
  }

  // --------------------------------------------------------------------
  // Runs
  // --------------------------------------------------------------------

  datatype Event =
    | CreateOffer(env: Env, offer: Offer)
    | CancelOffer(env: Env, player: Guid, id: OfferId)
    | AcceptOffer(env: Env, player: Guid, id: OfferId, amount: nat)
    | QueryExpired(ids: seq<OfferId>)
    | ExpireNext(env: Env)

  /** The events in any order: the callback of a query may come long after it. */
  function After(s: State, cat: Catalog, e: Event): State {
    match e
    case CreateOffer(env, o) => Create(s, cat, env, o)
    case CancelOffer(env, g, i) => Cancel(s, cat, env, g, i)
    case AcceptOffer(env, g, i, amount) => Accept(s, cat, env, g, i, amount)
    case QueryExpired(ids) => Snapshot(s, ids)
    case ExpireNext(env) =>
      if s.pending == [] then s else Expire(s.(pending := s.pending[1..]), cat, env, s.pending[0])
  }

  function AfterRun(s: State, cat: Catalog, run: seq<Event>): State
    decreases |run|
  {
    if run == [] then s else AfterRun(After(s, cat, run[0]), cat, run[1..])
  }

  /** Offers are owned by players, ids are not reused, and each id is in the table or left it once. */
  ghost predicate GoodOffers(s: State) {
    (forall i <- s.offers :: s.offers[i].owner in s.players && s.offers[i].amount > 0 && s.offers[i].price > 0) &&
    (forall i: OfferId {:trigger i in s.offers} {:trigger i in s.left} ::
      (i < s.nextId <==> i in s.offers || i in s.left) && !(i in s.offers && i in s.left)) &&
    forall i <- s.left :: |s.left[i]| == 1
  }

  /** The row is of this offer, taken when it held no less than now. */
  predicate GoodRow(s: State, row: Row) {
    row.id < s.nextId && row.offer.owner in s.players && row.offer.price > 0 &&
    (row.id in s.offers ==>
      var now := s.offers[row.id];
      now.amount <= row.offer.amount && now == row.offer.(amount := now.amount))
  }

  ghost predicate Valid(s: State) {
    GoodOffers(s) && forall k :: 0 <= k < |s.pending| ==> GoodRow(s, s.pending[k])
  }

  /** What a step does to the table of offers. */
  datatype Change = Same | Added(o: Offer) | Shrunk(id: OfferId, n: nat) | Gone(id: OfferId, how: Exit)

  ghost predicate Changed(s: State, t: State, c: Change) {
    t.players.Keys == s.players.Keys && t.pending == s.pending &&
    match c
    case Same => t.offers == s.offers && t.left == s.left && t.nextId == s.nextId
    case Added(o) =>
      o.owner in s.players && o.amount > 0 && o.price > 0 &&
      t.offers == s.offers[s.nextId := o] && t.left == s.left && t.nextId == s.nextId + 1
    case Shrunk(i, n) =>
      i in s.offers && n < s.offers[i].amount && t.left == s.left && t.nextId == s.nextId &&
      t.offers == s.offers[i := s.offers[i].(amount := s.offers[i].amount - n)]
    case Gone(i, how) =>
      i in s.offers && t.nextId == s.nextId && t.offers == s.offers - {i} && t.left == Drop(s, i, how).left
  }

  ghost predicate Changes(s: State, t: State) {
    exists c :: Changed(s, t, c)
  }

  lemma ChangedIsValid(s: State, t: State)
    requires Valid(s) && Changes(s, t)
    ensures Valid(t)
  {
    var c :| Changed(s, t, c);
    forall k | 0 <= k < |t.pending| ensures GoodRow(t, t.pending[k]) {
      assert GoodRow(s, s.pending[k]);
    }
  }

  lemma CollectChanges(s: State, cat: Catalog, g: Guid, x: ItemId, tier: nat, amount: nat)
    requires Present(s, g) && x in cat
    ensures Changed(s, Collect(s, cat, g, x, tier, amount).0, Same)
    ensures forall h :: Present(s, h) ==> Present(Collect(s, cat, g, x, tier, amount).0, h)
  {
  }

  /** Handing items over leaves the offers and who is there alone. */
  lemma DeliverChanges(s: State, cat: Catalog, g: Guid, x: ItemId, tier: nat, amount: nat)
    requires Present(s, g) && x in cat
    ensures var t := Deliver(s, cat, g, x, tier, amount);
      Changed(s, t, Same) && t.accounts.Keys == s.accounts.Keys &&
      forall h :: Present(s, h) ==> Present(t, h)
  {
  }

  lemma CreateChanges(s: State, cat: Catalog, env: Env, o: Offer)
    ensures Changes(s, Create(s, cat, env, o))
  {
    var t := Create(s, cat, env, o);
    if CreateAllowed(s, cat, env, o.owner, o) {
      CollectChanges(s, cat, o.owner, o.item, o.tier, o.amount);
    }
    assert Changed(s, t, if t.nextId == s.nextId then Same else Added(o));
  }

  lemma CancelChanges(s: State, cat: Catalog, env: Env, g: Guid, i: OfferId)
    ensures Changes(s, Cancel(s, cat, env, g, i))
  {
    var t := Cancel(s, cat, env, g, i);
    assert Changed(s, t, if i !in s.offers || i in t.offers then Same else Gone(i, Cancelled));
  }

  lemma ShrinkChanges(s: State, i: OfferId, amount: nat)
    requires i in s.offers && amount <= s.offers[i].amount
    ensures Changes(s, Shrink(s, i, amount))
  {
    assert Changed(s, Shrink(s, i, amount),
      if amount == s.offers[i].amount then Gone(i, Accepted) else Shrunk(i, amount));
  }

  lemma ThenChanges(s: State, u: State, t: State)
    requires Changed(s, u, Same) && Changes(u, t)
    ensures Changes(s, t)
  {
    var c :| Changed(u, t, c);
    assert Changed(s, t, c);
  }

  lemma SellToChanges(s: State, cat: Catalog, env: Env, g: Guid, i: OfferId, amount: nat)
    requires AcceptAllowed(s, cat, env, g, i, amount)
    ensures Changes(s, SellTo(s, cat, env, g, i, amount))
  {
    var o := s.offers[i];
    CollectChanges(s, cat, g, o.item, o.tier, amount);
    var (t, ok) := Collect(s, cat, g, o.item, o.tier, amount);
    if env.hasLocker && ok {
      var u := Deliver(Deposit(t, g, o.price * amount), cat, o.owner, o.item, o.tier, amount);
      ShrinkChanges(u, i, amount);
      ThenChanges(s, u, Shrink(u, i, amount));
    } else {
      assert Changed(s, SellTo(s, cat, env, g, i, amount), Same);
    }
  }

  lemma BuyFromChanges(s: State, cat: Catalog, env: Env, g: Guid, i: OfferId, amount: nat)
    requires AcceptAllowed(s, cat, env, g, i, amount)
    ensures Changes(s, BuyFrom(s, cat, env, g, i, amount))
  {
    var o, p := s.offers[i], s.players[g];
    var price := o.price * amount;
    if price <= p.bank + p.coins {
      var t := s.(players := s.players[g := Buy(p, price, env.dropped)]);
      var u := Deposit(Deliver(t, cat, g, o.item, o.tier, amount), o.owner, price);
      ShrinkChanges(u, i, amount);
      ThenChanges(s, u, Shrink(u, i, amount));
    } else {
      assert Changed(s, BuyFrom(s, cat, env, g, i, amount), Same);
    }
  }

  lemma AcceptChanges(s: State, cat: Catalog, env: Env, g: Guid, i: OfferId, amount: nat)
    ensures Changes(s, Accept(s, cat, env, g, i, amount))
  {
    if !AcceptAllowed(s, cat, env, g, i, amount) {
      assert Changed(s, Accept(s, cat, env, g, i, amount), Same);
    } else if s.offers[i].sell {
      BuyFromChanges(s, cat, env, g, i, amount);
    } else {
      SellToChanges(s, cat, env, g, i, amount);
    }
  }

  lemma ExpireChanges(s: State, cat: Catalog, env: Env, row: Row)
    ensures Changes(s, Expire(s, cat, env, row))
  {
    assert Changed(s, Expire(s, cat, env, row), if row.id in s.offers then Gone(row.id, Expired) else Same);
  }

  lemma {:induction false} RowsOfGood(s: State, ids: seq<OfferId>)
    requires GoodOffers(s)
    ensures forall k :: 0 <= k < |RowsOf(s.offers, ids)| ==> GoodRow(s, RowsOf(s.offers, ids)[k])
  {
    if ids != [] {
      RowsOfGood(s, ids[1..]);
    }
  }

  lemma SnapshotValid(s: State, ids: seq<OfferId>)
    requires Valid(s)
    ensures Valid(Snapshot(s, ids))
  {
    hide GoodRow;
    RowsOfGood(s, ids);
    var t, rows := Snapshot(s, ids), RowsOf(s.offers, ids);
    forall k | 0 <= k < |t.pending| ensures GoodRow(t, t.pending[k]) {
      var row := if k < |s.pending| then s.pending[k] else rows[k - |s.pending|];
      SameRow(s, t, row);
    }
  }

  lemma SameRow(s: State, t: State, row: Row)
    requires GoodRow(s, row) && t.players == s.players && t.offers == s.offers && t.nextId == s.nextId
    ensures GoodRow(t, row)
  {
  }

  lemma PoppedValid(s: State)
    requires Valid(s) && s.pending != []
    ensures Valid(s.(pending := s.pending[1..]))
  {
    var t := s.(pending := s.pending[1..]);
    hide GoodRow;
    forall k | 0 <= k < |t.pending| ensures GoodRow(t, t.pending[k]) {
      SameRow(s, t, s.pending[k + 1]);
    }
  }

  /** A table without offers is sound. */
  lemma EmptyIsValid(players: map<Guid, Player>, accounts: map<nat, nat>)
    ensures Valid(State(players, accounts, map[], 0, map[], []))
  {
  }

  /** Every event keeps the table sound; with it, no offer leaves the table twice. */
  lemma AfterValid(s: State, cat: Catalog, e: Event)
    requires Valid(s)
    ensures Valid(After(s, cat, e))
  {
    hide Valid, Changed, Create, Cancel, Accept, Expire, Snapshot;
    match e
    case CreateOffer(env, o) =>
      CreateChanges(s, cat, env, o);
      ChangedIsValid(s, After(s, cat, e));
    case CancelOffer(env, g, i) =>
      CancelChanges(s, cat, env, g, i);
      ChangedIsValid(s, After(s, cat, e));
    case AcceptOffer(env, g, i, amount) =>
      AcceptChanges(s, cat, env, g, i, amount);
      ChangedIsValid(s, After(s, cat, e));
    case QueryExpired(ids) =>
      SnapshotValid(s, ids);
    case ExpireNext(env) =>
      if s.pending != [] {
        var rest := s.(pending := s.pending[1..]);
        PoppedValid(s);
        ExpireChanges(rest, cat, env, s.pending[0]);
        ChangedIsValid(rest, After(s, cat, e));
      }
  }

  // --------------------------------------------------------------------
  // Whole runs
  // --------------------------------------------------------------------

  /** The fee an event charges: an offer was created. */
  function FeeOf(s: State, cat: Catalog, e: Event): nat {
    if e.CreateOffer? && After(s, cat, e).nextId != s.nextId then Fee(e.offer.price, e.offer.amount) else 0
  }

  /** A row is processed whose offer holds less than it did when the row was read. */
  predicate Stale(s: State, e: Event, sell: bool) {
    e.ExpireNext? && s.pending != [] &&
    var row := s.pending[0];
    row.offer.sell == sell && row.id in s.offers && s.offers[row.id].amount != row.offer.amount
  }

  ghost predicate NeverStale(s: State, cat: Catalog, run: seq<Event>, sell: bool)
    decreases |run|
  {
    run == [] || (!Stale(s, run[0], sell) && NeverStale(After(s, cat, run[0]), cat, run[1..], sell))
  }

  function Fees(s: State, cat: Catalog, run: seq<Event>): nat
    decreases |run|
  {
    if run == [] then 0 else FeeOf(s, cat, run[0]) + Fees(After(s, cat, run[0]), cat, run[1..])
  }

  lemma GoldStep(s: State, cat: Catalog, e: Event)
    requires Valid(s)
    ensures TotalGold(After(s, cat, e)) + FeeOf(s, cat, e) >= TotalGold(s)
    ensures TotalGold(After(s, cat, e)) + FeeOf(s, cat, e) == TotalGold(s) <==> !Stale(s, e, false)
  {
    match e
    case CreateOffer(env, o) => CreateTotals(s, cat, env, o, 0);
    case CancelOffer(env, g, i) => CancelTotals(s, cat, env, g, i, 0);
    case AcceptOffer(env, g, i, amount) => AcceptTotals(s, cat, env, g, i, amount, 0);
    case QueryExpired(ids) =>
    case ExpireNext(env) =>
      if s.pending != [] {
        assert GoodRow(s, s.pending[0]);
        ExpireGold(s.(pending := s.pending[1..]), cat, env, s.pending[0]);
      }
  }

  /** Expiring an offer refunds what the row says: right exactly when the offer still holds it. */
  lemma ExpireGold(s: State, cat: Catalog, env: Env, row: Row)
    requires GoodRow(s, row)
    ensures TotalGold(Expire(s, cat, env, row)) >= TotalGold(s)
    ensures TotalGold(Expire(s, cat, env, row)) == TotalGold(s) <==>
      row.id !in s.offers || row.offer.sell || s.offers[row.id].amount == row.offer.amount
  {
    if row.id in s.offers {
      ExpireTotals(s, cat, env, row, 0);
      Grows(row.offer.price, s.offers[row.id].amount, row.offer.amount);
    }
  }

  lemma Grows(price: nat, a: nat, b: nat)
    requires price > 0 && a <= b
    ensures price * a <= price * b && (price * a == price * b <==> a == b)
  {
    assert price * b == price * a + price * (b - a);
  }

  /** Over any run, in any interleaving, gold is lost to fees only, exactly when no refund is stale. */
  lemma {:induction false} GoldConserved(s: State, cat: Catalog, run: seq<Event>)
    requires Valid(s)
    ensures Valid(AfterRun(s, cat, run))
    ensures TotalGold(AfterRun(s, cat, run)) + Fees(s, cat, run) >= TotalGold(s)
    ensures TotalGold(AfterRun(s, cat, run)) + Fees(s, cat, run) == TotalGold(s) <==> NeverStale(s, cat, run, false)
    decreases |run|
  {
    if run != [] {
      GoldStep(s, cat, run[0]);
      AfterValid(s, cat, run[0]);
      GoldConserved(After(s, cat, run[0]), cat, run[1..]);
    }
  }

  /** A buy offer of 2 pieces is made and read by the query, 1 piece is sold to it, and then the callback comes:
      it refunds both, and gold appears. */
  lemma StaleRefund()
    ensures Valid(NOTHING_BOUGHT)
    ensures var t := AfterRun(NOTHING_BOUGHT, TRADED, STALE_BUY);
      TotalGold(t) + Fees(NOTHING_BOUGHT, TRADED, STALE_BUY) > TotalGold(NOTHING_BOUGHT)
  {
    var s, cat, run := NOTHING_BOUGHT, TRADED, STALE_BUY;
    EmptyIsValid(s.players, s.accounts);
    var a := After(s, cat, run[0]);
    assert a.offers == map[0 := WANTED] && a.nextId == 1 && a.pending == [];
    var b := After(a, cat, run[1]);
    SnapshotOfOne(a, 0);
    var c := After(b, cat, run[2]);
    OnePieceSold(b, cat, ADMITTED, PIECE);
    assert Stale(c, run[3], false);
    assert run[1..] == [run[1], run[2], run[3]] && run[1..][1..] == [run[2], run[3]];
    assert run[1..][1..][1..] == [run[3]];
    hide After, Stale, Valid, TotalGold, Fees, AfterRun;
    assert !NeverStale(c, cat, [run[3]], false);
    assert !NeverStale(b, cat, [run[2], run[3]], false);
    assert !NeverStale(a, cat, [run[1], run[2], run[3]], false);
    GoldConserved(s, cat, run);
  }

  const TRADED := map[7 := ItemType(true, true, 100)]
  const ADMITTED := Env(true, true, true, 0)
  const PIECE := Stack(7, 0, 1, true, true)
  const WANTED := Offer(1, false, 7, 0, 2, 10)
  const NOTHING_BOUGHT := State(
    map[1 := Player(1000, 0, 0, 1, map[], []), 2 := Player(0, 0, 0, 2, map[], [PIECE])],
    map[1 := 0, 2 := 0], map[], 0, map[], [])
  const STALE_BUY :=
    [CreateOffer(ADMITTED, WANTED), QueryExpired([0]), AcceptOffer(ADMITTED, 2, 0, 1), ExpireNext(ADMITTED)]

  lemma SnapshotOfOne(s: State, i: OfferId)
    requires i in s.offers && s.pending == []
    ensures Snapshot(s, [i]) == s.(pending := [Row(i, s.offers[i])])
  {
    assert [i][1..] == [];
    assert RowsOf(s.offers, []) == [];
    assert [Row(i, s.offers[i])] + [] == [Row(i, s.offers[i])];
  }

  lemma OnePieceSold(s: State, cat: Catalog, env: Env, piece: Stack)
    requires env == Env(true, true, true, 0) && piece == Stack(7, 0, 1, true, true)
    requires cat == map[7 := ItemType(true, true, 100)] && Present(s, 1) && Present(s, 2)
    requires s.players[1].account == 1 && s.players[2] == Player(0, 0, 0, 2, map[], [piece])
    requires 0 in s.offers && s.offers[0] == Offer(1, false, 7, 0, 2, 10)
    ensures var t := Accept(s, cat, env, 2, 0, 1);
      t.pending == s.pending && t.offers == s.offers[0 := Offer(1, false, 7, 0, 1, 10)]
  {
    assert [piece][1..] == [];
    assert Listed([piece][0], 7, 0);
    assert TakeStacks([piece], 7, 0, 1).left == 0;
    var (t, ok) := Collect(s, cat, 2, 7, 0, 1);
    assert ok && t.offers == s.offers && t.pending == s.pending;
  }

  /** The stale row is of a sell offer of this item, and its owner could be loaded. */
  predicate StaleItems(s: State, e: Event, x: ItemId) {
    Stale(s, e, true) && s.pending[0].offer.item == x && e.env.otherLoaded
  }

  /** Pieces of this item that do not stack lie one by one, everywhere. */
  ghost predicate AllSingle(s: State, x: ItemId) {
    forall g <- s.players :: Single(s.players[g].locker, x)
  }

  /** The item stacks, is a store coin, or its pieces lie one by one. */
  ghost predicate Countable(s: State, cat: Catalog, x: ItemId) {
    x in cat && (cat[x].stackable || x == STORE_COIN || AllSingle(s, x))
  }

  lemma {:induction false} TakeStacksSingle(l: seq<Stack>, x: ItemId, tier: nat, need: nat, y: ItemId)
    requires Single(l, y) && x != y
    ensures Single(TakeStacks(l, x, tier, need).locker, y)
  {
    if l != [] && need > 0 {
      if !Listed(l[0], x, tier) {
        TakeStacksSingle(l[1..], x, tier, need, y);
      } else {
        var n := Min(need, l[0].count);
        TakeStacksSingle(l[1..], x, tier, need - n, y);
      }
    }
  }

  lemma {:induction false} TakeSinglesSingle(l: seq<Stack>, x: ItemId, tier: nat, amount: nat, count: nat, need: nat,
                                             y: ItemId)
    requires Single(l, y)
    ensures Single(TakeSingles(l, x, tier, amount, count, need).locker, y)
    decreases |l|
  {
    if l != [] {
      if !Listed(l[0], x, tier) {
        TakeSinglesSingle(l[1..], x, tier, amount, count, need, y);
      } else if count + l[0].count <= amount && l[0].removable {
        TakeSinglesSingle(l[1..], x, tier, amount, count + l[0].count, (need + U16 - 1) % U16, y);
      }
    }
  }

  lemma RemovalSingle(p: Player, stackable: bool, x: ItemId, tier: nat, amount: nat, y: ItemId)
    requires Single(p.locker, y) && (x == y ==> !stackable)
    ensures Single(RemoveOfferItems(p, stackable, x, tier, amount).player.locker, y)
  {
    hide TakeStacks, TakeSingles, Single;
    var (q, need) := FromStash(p, x, amount);
    if stackable {
      TakeStacksSingle(q.locker, x, tier, need, y);
    } else {
      TakeSinglesSingle(q.locker, x, tier, amount, 0, need, y);
    }
  }

  lemma InboxSingle(p: Player, x: ItemId, tier: nat, amount: nat, size: nat, y: ItemId)
    requires Single(p.locker, y) && size > 0 && (x == y ==> size == 1)
    ensures Single(IntoInbox(p, Split(x, tier, amount, size)).locker, y)
  {
  }

  lemma DeliverSingle(s: State, cat: Catalog, g: Guid, x: ItemId, tier: nat, amount: nat, y: ItemId)
    requires Present(s, g) && x in cat && AllSingle(s, y) && (x == y ==> !cat[x].stackable)
    ensures AllSingle(Deliver(s, cat, g, x, tier, amount), y)
  {
    hide Single, Split;
    if x != STORE_COIN {
      InboxSingle(s.players[g], x, tier, amount, StackSize(cat, x), y);
    }
  }

  lemma CollectSingle(s: State, cat: Catalog, g: Guid, x: ItemId, tier: nat, amount: nat, y: ItemId)
    requires Present(s, g) && x in cat && AllSingle(s, y) && (x == y ==> !cat[x].stackable)
    ensures AllSingle(Collect(s, cat, g, x, tier, amount).0, y)
  {
    hide Single, RemoveOfferItems;
    if x != STORE_COIN {
      RemovalSingle(s.players[g], cat[x].stackable, x, tier, amount, y);
    }
  }

  lemma CreateSingle(s: State, cat: Catalog, env: Env, o: Offer, y: ItemId)
    requires AllSingle(s, y) && y in cat && !cat[y].stackable
    ensures AllSingle(Create(s, cat, env, o), y)
  {
    hide Single, Collect;
    if CreateAllowed(s, cat, env, o.owner, o) {
      CollectSingle(s, cat, o.owner, o.item, o.tier, o.amount, y);
      CollectChanges(s, cat, o.owner, o.item, o.tier, o.amount);
    }
  }

  lemma CancelSingle(s: State, cat: Catalog, env: Env, g: Guid, i: OfferId, y: ItemId)
    requires AllSingle(s, y) && y in cat && !cat[y].stackable
    ensures AllSingle(Cancel(s, cat, env, g, i), y)
  {
    hide Single, Deliver;
    if Present(s, g) && i in s.offers && s.offers[i].item in cat {
      DeliverSingle(s, cat, g, s.offers[i].item, s.offers[i].tier, s.offers[i].amount, y);
    }
  }

  lemma AcceptSingle(s: State, cat: Catalog, env: Env, g: Guid, i: OfferId, amount: nat, y: ItemId)
    requires AllSingle(s, y) && y in cat && !cat[y].stackable
    ensures AllSingle(Accept(s, cat, env, g, i, amount), y)
  {
    if AcceptAllowed(s, cat, env, g, i, amount) {
      if s.offers[i].sell {
        BuyFromSingle(s, cat, env, g, i, amount, y);
      } else {
        SellToSingle(s, cat, env, g, i, amount, y);
      }
    }
  }

  lemma BuyFromSingle(s: State, cat: Catalog, env: Env, g: Guid, i: OfferId, amount: nat, y: ItemId)
    requires AllSingle(s, y) && y in cat && !cat[y].stackable && AcceptAllowed(s, cat, env, g, i, amount)
    ensures AllSingle(BuyFrom(s, cat, env, g, i, amount), y)
  {
    hide Single, Deliver, AmountAllowed;
    var o, p := s.offers[i], s.players[g];
    var price := o.price * amount;
    if price <= p.bank + p.coins {
      var t := s.(players := s.players[g := Buy(p, price, env.dropped)]);
      DeliverSingle(t, cat, g, o.item, o.tier, amount, y);
      DeliverChanges(t, cat, g, o.item, o.tier, amount);
    }
  }

  lemma SellToSingle(s: State, cat: Catalog, env: Env, g: Guid, i: OfferId, amount: nat, y: ItemId)
    requires AllSingle(s, y) && y in cat && !cat[y].stackable && AcceptAllowed(s, cat, env, g, i, amount)
    ensures AllSingle(SellTo(s, cat, env, g, i, amount), y)
  {
    hide Single, Collect, Deliver, AmountAllowed;
    var o := s.offers[i];
    CollectSingle(s, cat, g, o.item, o.tier, amount, y);
    CollectChanges(s, cat, g, o.item, o.tier, amount);
    var t := Collect(s, cat, g, o.item, o.tier, amount).0;
    assert Present(t, g) && Present(t, o.owner);
    var u := Deposit(t, g, o.price * amount);
    DeliverSingle(u, cat, o.owner, o.item, o.tier, amount, y);
    DeliverChanges(u, cat, o.owner, o.item, o.tier, amount);
  }

  lemma ExpireSingle(s: State, cat: Catalog, env: Env, row: Row, y: ItemId)
    requires AllSingle(s, y) && y in cat && !cat[y].stackable
    ensures AllSingle(Expire(s, cat, env, row), y)
  {
    hide Single, Split;
    var o := row.offer;
    if o.owner in s.players && o.item in cat {
      InboxSingle(s.players[o.owner], o.item, o.tier, o.amount, if cat[o.item].stackable then 100 else 1, y);
    }
  }

  /** What may be counted stays so. */
  lemma AfterCountable(s: State, cat: Catalog, e: Event, x: ItemId)
    requires Countable(s, cat, x)
    ensures Countable(After(s, cat, e), cat, x)
  {
    hide AllSingle, Create, Cancel, Accept, Expire;
    if !cat[x].stackable && x != STORE_COIN {
      match e
      case CreateOffer(env, o) => CreateSingle(s, cat, env, o, x);
      case CancelOffer(env, g, i) => CancelSingle(s, cat, env, g, i, x);
      case AcceptOffer(env, g, i, amount) => AcceptSingle(s, cat, env, g, i, amount, x);
      case QueryExpired(ids) => SamePlayersSingle(s, Snapshot(s, ids), x);
      case ExpireNext(env) =>
        if s.pending != [] {
          var rest := s.(pending := s.pending[1..]);
          SamePlayersSingle(s, rest, x);
          ExpireSingle(rest, cat, env, s.pending[0], x);
        }
    }
  }

  lemma SamePlayersSingle(s: State, t: State, x: ItemId)
    requires AllSingle(s, x) && t.players == s.players
    ensures AllSingle(t, x)
  {
  }

  lemma CountableIsWhole(s: State, cat: Catalog, g: Guid, x: ItemId)
    requires Countable(s, cat, x) && g in s.players
    ensures Whole(s, cat, g, x)
  {
  }

  /** One event multiplies an item exactly when it processes such a row. */
  lemma ItemsStep(s: State, cat: Catalog, e: Event, x: ItemId)
    requires Valid(s) && Countable(s, cat, x)
    ensures TotalItems(After(s, cat, e), x) <= TotalItems(s, x) <==> !StaleItems(s, e, x)
  {
    hide TotalItems, Create, Cancel, Accept, Expire, Whole, GoodOffers;
    match e
    case CreateOffer(env, o) =>
      if o.owner in s.players {
        CountableIsWhole(s, cat, o.owner, x);
      }
      NextIsNew(s);
      CreateTotals(s, cat, env, o, x);
      CreateUnchanged(s, cat, env, o);
    case CancelOffer(env, g, i) => CancelTotals(s, cat, env, g, i, x);
    case AcceptOffer(env, g, i, amount) =>
      if g in s.players {
        CountableIsWhole(s, cat, g, x);
      }
      AcceptTotals(s, cat, env, g, i, amount, x);
      AcceptUnchanged(s, cat, env, g, i, amount);
    case QueryExpired(ids) => SameItems(s, Snapshot(s, ids), x);
    case ExpireNext(env) =>
      if s.pending != [] {
        var row := s.pending[0];
        assert GoodRow(s, row);
        ExpireItems(s, cat, env, row, x);
      }
  }

  lemma NextIsNew(s: State)
    requires Valid(s)
    ensures s.nextId !in s.offers
  {
  }

  lemma CreateUnchanged(s: State, cat: Catalog, env: Env, o: Offer)
    ensures o.owner !in s.players ==> Create(s, cat, env, o) == s
  {
  }

  lemma AcceptUnchanged(s: State, cat: Catalog, env: Env, g: Guid, i: OfferId, amount: nat)
    ensures g !in s.players || i !in s.offers ==> Accept(s, cat, env, g, i, amount) == s
  {
  }

  lemma SameItems(s: State, t: State, x: ItemId)
    requires t.players == s.players && t.accounts == s.accounts && t.offers == s.offers
    ensures TotalItems(t, x) == TotalItems(s, x)
  {
  }

  lemma ExpireItems(s: State, cat: Catalog, env: Env, row: Row, x: ItemId)
    requires s.pending != [] && row == s.pending[0] && GoodRow(s, row) && x in cat
    ensures var t := Expire(s.(pending := s.pending[1..]), cat, env, row);
      TotalItems(t, x) <= TotalItems(s, x) <==> !StaleItems(s, ExpireNext(env), x)
  {
    var rest := s.(pending := s.pending[1..]);
    SameItems(s, rest, x);
    if row.id in s.offers {
      ExpireTotals(rest, cat, env, row, x);
    }
  }

  ghost predicate NeverStaleItems(s: State, cat: Catalog, run: seq<Event>, x: ItemId)
    decreases |run|
  {
    run == [] || (!StaleItems(s, run[0], x) && NeverStaleItems(After(s, cat, run[0]), cat, run[1..], x))
  }

  const ON_SALE := Offer(1, true, 7, 0, 2, 10)
  const NOTHING_SOLD := State(
    map[1 := Player(1000, 0, 0, 1, map[7 := 2], []), 2 := Player(1000, 0, 0, 2, map[], [])],
    map[1 := 0, 2 := 0], map[], 0, map[], [])
  const STALE_SALE :=
    [CreateOffer(ADMITTED, ON_SALE), QueryExpired([0]), AcceptOffer(ADMITTED, 2, 0, 1), ExpireNext(ADMITTED)]

  lemma PiecesOnSale()
    ensures var a := Create(NOTHING_SOLD, TRADED, ADMITTED, ON_SALE);
      a.offers == map[0 := ON_SALE] && a.nextId == 1 && a.pending == [] && Present(a, 1) && Present(a, 2) &&
      a.players[1].account == 1 && a.players[2] == NOTHING_SOLD.players[2]
  {
  }

  lemma OnePieceBought(s: State)
    requires Present(s, 1) && Present(s, 2) && s.players[1].account == 1 && s.players[2] == NOTHING_SOLD.players[2]
    requires 0 in s.offers && s.offers[0] == ON_SALE
    ensures var t := Accept(s, TRADED, ADMITTED, 2, 0, 1);
      t.pending == s.pending && t.offers == s.offers[0 := ON_SALE.(amount := 1)]
  {
    DeliverChanges(s, TRADED, 2, 7, 0, 1);
  }

  lemma OnSaleTotals()
    ensures TotalItems(Create(NOTHING_SOLD, TRADED, ADMITTED, ON_SALE), 7) == TotalItems(NOTHING_SOLD, 7)
  {
    hide Create, TotalItems, Whole;
    PiecesOnSale();
    CountableIsWhole(NOTHING_SOLD, TRADED, 1, 7);
    CreateTotals(NOTHING_SOLD, TRADED, ADMITTED, ON_SALE, 7);
  }

  lemma BoughtTotals(s: State)
    requires Present(s, 1) && Present(s, 2) && s.players[1].account == 1 && s.players[2] == NOTHING_SOLD.players[2]
    requires 0 in s.offers && s.offers[0] == ON_SALE
    ensures TotalItems(Accept(s, TRADED, ADMITTED, 2, 0, 1), 7) == TotalItems(s, 7)
  {
    hide Accept, TotalItems, Whole;
    OnePieceBought(s);
    CountableIsWhole(s, TRADED, 2, 7);
    AcceptTotals(s, TRADED, ADMITTED, 2, 0, 1, 7);
    assert ON_SALE.(amount := 1) != ON_SALE;
  }

  lemma FirstStep(s: State, cat: Catalog, e: Event, run: seq<Event>)
    ensures AfterRun(s, cat, [e] + run) == AfterRun(After(s, cat, e), cat, run)
    ensures AfterRun(s, cat, []) == s
  {
    hide After;
    assert ([e] + run)[1..] == run;
  }

  /** Two pieces are put on sale and read by the query, one is sold, and the callback returns both: a third piece has
      appeared. */
  lemma StaleReturn()
    ensures Valid(NOTHING_SOLD) && Countable(NOTHING_SOLD, TRADED, 7)
    ensures TotalItems(AfterRun(NOTHING_SOLD, TRADED, STALE_SALE), 7) > TotalItems(NOTHING_SOLD, 7)
  {
    hide Create, Accept, Expire, Snapshot, TotalItems, Valid, AfterRun;
    var s, cat, run := NOTHING_SOLD, TRADED, STALE_SALE;
    EmptyIsValid(s.players, s.accounts);
    PiecesOnSale();
    OnSaleTotals();
    AfterValid(s, cat, run[0]);
    FirstStep(s, cat, run[0], [run[1]] + ([run[2]] + ([run[3]] + [])));
    assert run == [run[0]] + ([run[1]] + ([run[2]] + ([run[3]] + [])));
    StaleFrom(After(s, cat, run[0]), cat, run[1], run[2], run[3]);
  }

  lemma StaleFrom(a: State, cat: Catalog, query: Event, accept: Event, expire: Event)
    requires Valid(a) && cat == TRADED && a.offers == map[0 := ON_SALE] && a.pending == []
    requires Present(a, 1) && Present(a, 2)
    requires a.players[1].account == 1 && a.players[2] == NOTHING_SOLD.players[2]
    requires query == QueryExpired([0]) && accept == AcceptOffer(ADMITTED, 2, 0, 1) && expire == ExpireNext(ADMITTED)
    ensures TotalItems(AfterRun(a, cat, [query] + ([accept] + ([expire] + []))), 7) > TotalItems(a, 7)
  {
    hide Accept, Expire, Snapshot, TotalItems, Valid, AfterRun;
    var b := After(a, cat, query);
    SnapshotOfOne(a, 0);
    SameItems(a, b, 7);
    AfterValid(a, cat, query);
    var c := After(b, cat, accept);
    OnePieceBought(b);
    BoughtTotals(b);
    AfterValid(b, cat, accept);
    ItemsStep(c, cat, expire, 7);
    FirstStep(a, cat, query, [accept] + ([expire] + []));
    FirstStep(b, cat, accept, [expire] + []);
    FirstStep(c, cat, expire, []);
    FirstStep(After(c, cat, expire), cat, expire, []);
  }

  /** Over any run in which no such row is processed no piece of an item is ever duplicated. */
  lemma {:induction false} ItemsNeverGrow(s: State, cat: Catalog, run: seq<Event>, x: ItemId)
    requires Valid(s) && Countable(s, cat, x) && NeverStaleItems(s, cat, run, x)
    ensures TotalItems(AfterRun(s, cat, run), x) <= TotalItems(s, x)
    decreases |run|
  {
    if run != [] {
      ItemsStep(s, cat, run[0], x);
      AfterValid(s, cat, run[0]);
      AfterCountable(s, cat, run[0], x);
      ItemsNeverGrow(After(s, cat, run[0]), cat, run[1..], x);
    }
  }

  /** Whatever interleaves with the queries and their callbacks, no offer leaves the table twice. */
  lemma {:induction false} LeavesOnce(s: State, cat: Catalog, run: seq<Event>, i: OfferId)
    requires Valid(s)
    ensures var t := AfterRun(s, cat, run);
      (i in t.left ==> |t.left[i]| == 1 && i !in t.offers) &&
      (i in s.left ==> i in t.left && t.left[i] == s.left[i])
    decreases |run|
  {
    if run != [] {
      var t := After(s, cat, run[0]);
      AfterValid(s, cat, run[0]);
      if i in s.left {
        LeftStays(s, cat, run[0], i);
      }
      LeavesOnce(t, cat, run[1..], i);
    }
  }

  lemma LeftStays(s: State, cat: Catalog, e: Event, i: OfferId)
    requires Valid(s) && i in s.left
    ensures var t := After(s, cat, e); i in t.left && t.left[i] == s.left[i]
  {
    hide Valid, Create, Cancel, Accept, Expire;
    match e
    case CreateOffer(env, o) =>
      CreateChanges(s, cat, env, o);
      ChangedLeft(s, After(s, cat, e), i);
    case CancelOffer(env, g, j) =>
      CancelChanges(s, cat, env, g, j);
      ChangedLeft(s, After(s, cat, e), i);
    case AcceptOffer(env, g, j, amount) =>
      AcceptChanges(s, cat, env, g, j, amount);
      ChangedLeft(s, After(s, cat, e), i);
    case QueryExpired(ids) =>
    case ExpireNext(env) =>
      if s.pending != [] {
        var rest := s.(pending := s.pending[1..]);
        PoppedValid(s);
        ExpireChanges(rest, cat, env, s.pending[0]);
        ChangedLeft(rest, After(s, cat, e), i);
      }
  }

  lemma ChangedLeft(s: State, t: State, i: OfferId)
    requires Valid(s) && Changes(s, t) && i in s.left
    ensures i in t.left && t.left[i] == s.left[i]
  {
    var c :| Changed(s, t, c);
  }

  // --------------------------------------------------------------------
  // The market itself
  // --------------------------------------------------------------------

  /** The stacks before the loop's position, as they are now, and what the loop makes of the rest. */
  function Behind(kept: seq<Stack>, r: Taken): Taken {
    r.(locker := kept + r.locker)
  }

  lemma BehindKeep(kept: seq<Stack>, k: Stack, r: Taken)
    ensures Behind(kept, Keep(k, r)) == Behind(kept + (if k.count > 0 then [k] else []), r)
  {
    assert kept + ([k] + r.locker) == kept + [k] + r.locker;
    assert [] + r.locker == r.locker && kept + [] == kept;
  }

  lemma SetTwice<T>(m: map<nat, T>, k: nat, a: T, b: T)
    ensures m[k := a][k := b] == m[k := b]
  {
  }

  lemma SplitNone(x: ItemId, tier: nat, size: nat)
    requires size > 0
    ensures Split(x, tier, 0, size) == []
  {
  }

  lemma TakeStacksStep(l: seq<Stack>, i: nat, x: ItemId, tier: nat, need: nat)
    requires i < |l| && need > 0
    ensures var k := l[i];
      var n := Min(need, k.count);
      TakeStacks(l[i..], x, tier, need) ==
        if !Listed(k, x, tier) then Keep(k, TakeStacks(l[i + 1..], x, tier, need))
        else if !k.removable then Taken(l[i..], need - n, true)
        else Keep(k.(count := k.count - n), TakeStacks(l[i + 1..], x, tier, need - n))
  {
    assert l[i..][1..] == l[i + 1..];
  }

  lemma TakeSinglesStep(l: seq<Stack>, i: nat, x: ItemId, tier: nat, amount: nat, count: nat, need: nat)
    requires i < |l|
    ensures var k := l[i];
      TakeSingles(l[i..], x, tier, amount, count, need) ==
        if !Listed(k, x, tier) then Keep(k, TakeSingles(l[i + 1..], x, tier, amount, count, need))
        else if count + k.count > amount then Taken(l[i..], need, false)
        else if !k.removable then Taken(l[i..], need, true)
        else TakeSingles(l[i + 1..], x, tier, amount, count + k.count, (need + U16 - 1) % U16)
  {
    assert l[i..][1..] == l[i + 1..];
  }

  lemma InboxTwice(p: Player, a: seq<Stack>, b: seq<Stack>)
    ensures IntoInbox(IntoInbox(p, a), b) == IntoInbox(p, a + b)
    ensures IntoInbox(p, []) == p
  {
    assert p.locker + a + b == p.locker + (a + b);
    assert p.locker + [] == p.locker;
  }

  lemma SplitNext(done: seq<Stack>, x: ItemId, tier: nat, amount: nat, size: nat)
    requires size > 0 && amount > 0
    ensures var n := Min(size, amount);
      done + Split(x, tier, amount, size) ==
      done + [Stack(x, tier, n, true, true)] + Split(x, tier, amount - n, size)
  {
  }

  lemma PaidAccount(p: Player, amount: nat, useBalance: bool, dropped: nat)
    ensures Paid(p, amount, useBalance, dropped).account == p.account
  {
  }

  class MarketHouse {
    const catalog: Catalog
    var players: map<Guid, Player>
    var accounts: map<nat, nat>
    var offers: map<OfferId, Offer>
    var nextId: OfferId
    var left: map<OfferId, seq<Exit>>
    var pending: seq<Row>

    ghost function Now(): State
      reads this
    {
      State(players, accounts, offers, nextId, left, pending)
    }

    /** A market without offers. */
    constructor (catalog: Catalog, players: map<Guid, Player>, accounts: map<nat, nat>)
      ensures this.catalog == catalog && Valid(Now())
      ensures Now() == State(players, accounts, map[], 0, map[], [])
    {
      this.catalog, this.players, this.accounts := catalog, players, accounts;
      offers, nextId, left, pending := map[], 0, map[], [];
      EmptyIsValid(players, accounts);
    }

    /** IOMarket::moveOfferToHistory, or deleteOffer for an offer that was accepted whole. */
    method LeaveTable(i: OfferId, how: Exit) returns (moved: bool)
      modifies this`offers, this`left
      ensures Now() == Drop(old(Now()), i, how)
      ensures moved <==> i in old(offers)
    {
      moved := i in offers;
      if moved {
        offers := offers - {i};
        left := left[i := (if i in left then left[i] else []) + [how]];
      }
    }

    /** The loop that creates stacks in the inbox. */
    method AddToInbox(g: Guid, x: ItemId, tier: nat, amount: nat, size: nat)
      requires g in players && size > 0
      modifies this`players
      ensures players == old(players)[g := IntoInbox(old(players[g]), Split(x, tier, amount, size))]
    {
      hide Split, IntoInbox;
      var tmpAmount: nat := amount;
      ghost var was, p, added := players, players[g], [];
      ghost var all := Split(x, tier, amount, size);
      InboxTwice(p, [], []);
      assert was == was[g := p];
      while tmpAmount > 0
        invariant tmpAmount <= amount
        invariant players == was[g := IntoInbox(p, added)]
        invariant all == added + Split(x, tier, tmpAmount, size)
      {
        var stackCount := Min(size, tmpAmount);
        var item := Stack(x, tier, stackCount, true, true);
        InboxTwice(p, added, [item]);
        SetTwice(was, g, IntoInbox(p, added), IntoInbox(p, added + [item]));
        players := players[g := IntoInbox(players[g], [item])];
        SplitNext(added, x, tier, tmpAmount, size);
        tmpAmount := tmpAmount - stackCount;
        added := added + [item];
      }
      assert added + [] == added;
      SplitNone(x, tier, size);
    }

    method TakeFromStacks(l: seq<Stack>, x: ItemId, tier: nat, amount: nat) returns (r: Taken)
      ensures r == TakeStacks(l, x, tier, amount)
    {
      var kept, i := [], 0;
      var removeAmount: nat := amount;
      assert l[0..] == l;
      while i < |l| && removeAmount > 0
        invariant 0 <= i <= |l|
        invariant TakeStacks(l, x, tier, amount) == Behind(kept, TakeStacks(l[i..], x, tier, removeAmount))
      {
        var k := l[i];
        TakeStacksStep(l, i, x, tier, removeAmount);
        if Listed(k, x, tier) {
          var removeCount := Min(removeAmount, k.count);
          removeAmount := removeAmount - removeCount;
          if !k.removable {
            return Taken(kept + l[i..], removeAmount, true);
          }
          k := k.(count := k.count - removeCount);
        }
        BehindKeep(kept, k, TakeStacks(l[i + 1..], x, tier, removeAmount));
        kept := kept + if k.count > 0 then [k] else [];
        i := i + 1;
      }
      r := Taken(kept + l[i..], removeAmount, false);
    }

    method TakeFromSingles(l: seq<Stack>, x: ItemId, tier: nat, amount: nat, need: nat) returns (r: Taken)
      ensures r == TakeSingles(l, x, tier, amount, 0, need)
    {
      var kept, i := [], 0;
      var count: nat, removeAmount: nat := 0, need;
      assert l[0..] == l;
      while i < |l|
        invariant 0 <= i <= |l|
        invariant TakeSingles(l, x, tier, amount, 0, need) ==
                  Behind(kept, TakeSingles(l[i..], x, tier, amount, count, removeAmount))
      {
        var k := l[i];
        TakeSinglesStep(l, i, x, tier, amount, count, removeAmount);
        if Listed(k, x, tier) {
          count := count + k.count;
          if count > amount {
            return Taken(kept + l[i..], removeAmount, false);
          }
          if !k.removable {
            return Taken(kept + l[i..], removeAmount, true);
          }
          removeAmount := (removeAmount + U16 - 1) % U16;
        } else {
          BehindKeep(kept, k, TakeSingles(l[i + 1..], x, tier, amount, count, removeAmount));
          kept := kept + if k.count > 0 then [k] else [];
        }
        i := i + 1;
      }
      r := Taken(kept + l[i..], removeAmount, false);
    }

    /** removeOfferItems */
    method TakeOfferItems(g: Guid, x: ItemId, tier: nat, amount: nat) returns (ok: bool)
      requires g in players && x in catalog
      modifies this`players
      ensures var r := RemoveOfferItems(old(players[g]), catalog[x].stackable, x, tier, amount);
        players == old(players)[g := r.player] && ok == r.ok
    {
      var (p, removeAmount) := FromStash(players[g], x, amount);
      players := players[g := p];
      if removeAmount > 0 {
        if !AnyListed(p.locker, x, tier) {
          return false;
        }
        var r;
        if catalog[x].stackable {
          r := TakeFromStacks(p.locker, x, tier, removeAmount);
        } else {
          r := TakeFromSingles(p.locker, x, tier, amount, removeAmount);
        }
        players := players[g := p.(locker := r.locker)];
        if r.failed || r.left > 0 {
          return false;
        }
      }
      ok := true;
    }

    /** The items of an offer that was cancelled or accepted. */
    method HandOver(g: Guid, x: ItemId, tier: nat, amount: nat)
      requires Present(Now(), g) && x in catalog
      modifies this`players, this`accounts
      ensures Now() == Deliver(old(Now()), catalog, g, x, tier, amount)
    {
      if x == STORE_COIN {
        var a := players[g].account;
        accounts := accounts[a := accounts[a] + amount];
      } else {
        AddToInbox(g, x, tier, amount, StackSize(catalog, x));
      }
    }

    method AddToBank(g: Guid, gold: nat)
      requires g in players
      modifies this`players
      ensures Now() == Deposit(old(Now()), g, gold)
    {
      players := players[g := players[g].(bank := players[g].bank + gold)];
    }

    /** The items for a new sell offer, or for a buy offer that is being filled. */
    method TakeIn(g: Guid, x: ItemId, tier: nat, amount: nat) returns (ok: bool)
      requires Present(Now(), g) && x in catalog
      modifies this`players, this`accounts
      ensures (Now(), ok) == Collect(old(Now()), catalog, g, x, tier, amount)
    {
      if x == STORE_COIN {
        var a := players[g].account;
        if amount > accounts[a] {
          return false;
        }
        accounts := accounts[a := accounts[a] - amount];
        ok := true;
      } else {
        ok := TakeOfferItems(g, x, tier, amount);
      }
    }

    method CreateOffer(env: Env, o: Offer)
      modifies this`players, this`accounts, this`offers, this`nextId
      ensures Now() == Create(old(Now()), catalog, env, o)
    {
      if o.owner !in players || players[o.owner].account !in accounts || !env.admitted || o.price == 0 ||
        o.price > 999999999999 || o.item !in catalog || !catalog[o.item].tradeable ||
        !AmountAllowed(catalog, o.item, o.amount)
      {
        return;
      }
      var p := players[o.owner];
      var fee := Fee(o.price, o.amount);
      if o.sell {
        if fee > p.bank + p.coins || !env.hasLocker {
          return;
        }
        var ok := TakeIn(o.owner, o.item, o.tier, o.amount);
        if !ok {
          return;
        }
        players := players[o.owner := Paid(players[o.owner], fee, true, env.dropped)];
      } else {
        var totalPrice := o.price * o.amount + fee;
        if totalPrice > p.coins + p.bank {
          return;
        }
        players := players[o.owner := Paid(p, totalPrice, true, env.dropped)];
      }
      offers := offers[nextId := o];
      nextId := nextId + 1;
    }

    method CancelOffer(env: Env, g: Guid, i: OfferId)
      modifies this`players, this`accounts, this`offers, this`left
      ensures Now() == Cancel(old(Now()), catalog, env, g, i)
    {
      if g !in players || players[g].account !in accounts || !env.admitted || i !in offers || offers[i].owner != g {
        return;
      }
      var o := offers[i];
      if !o.sell {
        AddToBank(g, o.price * o.amount);
      } else {
        if o.item !in catalog {
          return;
        }
        HandOver(g, o.item, o.tier, o.amount);
      }
      var _ := LeaveTable(i, Cancelled);
    }

    method AcceptOffer(env: Env, g: Guid, i: OfferId, amount: nat)
      modifies this`players, this`accounts, this`offers, this`left
      ensures Now() == Accept(old(Now()), catalog, env, g, i, amount)
    {
      hide AmountAllowed, SellTo, BuyFrom;
      if !AcceptAllowed(State(players, accounts, offers, nextId, left, pending), catalog, env, g, i, amount) {
        return;
      }
      if offers[i].sell {
        BuyFromOffer(env, g, i, amount);
      } else {
        SellToOffer(env, g, i, amount);
      }
    }

    /** Accepting a buy offer. */
    method SellToOffer(env: Env, g: Guid, i: OfferId, amount: nat)
      requires AcceptAllowed(Now(), catalog, env, g, i, amount)
      modifies this`players, this`accounts, this`offers, this`left
      ensures Now() == SellTo(old(Now()), catalog, env, g, i, amount)
    {
      hide Collect, Deliver, AmountAllowed;
      if !env.hasLocker {
        return;
      }
      var o := offers[i];
      CollectChanges(Now(), catalog, g, o.item, o.tier, amount);
      var ok := TakeIn(g, o.item, o.tier, amount);
      if !ok {
        return;
      }
      AddToBank(g, o.price * amount);
      DeliverChanges(Now(), catalog, o.owner, o.item, o.tier, amount);
      HandOver(o.owner, o.item, o.tier, amount);
      Reduce(i, amount);
    }

    /** Accepting a sell offer: the bank pays first, then the coins. */
    method BuyFromOffer(env: Env, g: Guid, i: OfferId, amount: nat)
      requires AcceptAllowed(Now(), catalog, env, g, i, amount)
      modifies this`players, this`accounts, this`offers, this`left
      ensures Now() == BuyFrom(old(Now()), catalog, env, g, i, amount)
    {
      hide Deliver, Paid, AmountAllowed;
      var o, p := offers[i], players[g];
      var totalPrice := o.price * amount;
      if totalPrice > p.bank + p.coins {
        return;
      }
      if totalPrice <= p.bank {
        players := players[g := p.(bank := p.bank - totalPrice)];
      } else {
        PaidAccount(p.(bank := 0), totalPrice - p.bank, false, env.dropped);
        players := players[g := Paid(p.(bank := 0), totalPrice - p.bank, false, env.dropped)];
      }
      DeliverChanges(Now(), catalog, g, o.item, o.tier, amount);
      HandOver(g, o.item, o.tier, amount);
      AddToBank(o.owner, totalPrice);
      Reduce(i, amount);
    }

    /** The offer shrinks, or leaves the table when it was accepted whole. */
    method Reduce(i: OfferId, amount: nat)
      requires i in offers && amount <= offers[i].amount
      modifies this`offers, this`left
      ensures Now() == Shrink(old(Now()), i, amount)
    {
      var o := offers[i];
      if o.amount == amount {
        var _ := LeaveTable(i, Accepted);
      } else {
        offers := offers[i := o.(amount := o.amount - amount)];
      }
    }

    /** checkExpiredOffers: only reads the table; the rows wait for the callback. */
    method QueryExpired(ids: seq<OfferId>)
      modifies this`pending
      ensures Now() == Snapshot(old(Now()), ids)
    {
      ghost var was := pending;
      for n := 0 to |ids|
        invariant was + RowsOf(offers, ids) == pending + RowsOf(offers, ids[n..])
      {
        assert ids[n..][1..] == ids[n + 1..];
        if ids[n] in offers {
          assert pending + ([Row(ids[n], offers[ids[n]])] + RowsOf(offers, ids[n + 1..])) ==
                 pending + [Row(ids[n], offers[ids[n]])] + RowsOf(offers, ids[n + 1..]);
          pending := pending + [Row(ids[n], offers[ids[n]])];
        }
      }
    }

    /** processExpiredOffers: the callback of a query, row by row. */
    method ProcessExpired(envs: seq<Env>)
      requires |envs| == |pending|
      modifies this`players, this`offers, this`left, this`pending
      ensures Now() == AfterRun(old(Now()), catalog, ExpireAll(envs))
      ensures pending == []
    {
      ghost var start := Now();
      var n := 0;
      assert envs[0..] == envs;
      while pending != []
        invariant n + |pending| == |envs|
        invariant AfterRun(start, catalog, ExpireAll(envs)) == AfterRun(Now(), catalog, ExpireAll(envs[n..]))
        decreases |pending|
      {
        var row := pending[0];
        pending := pending[1..];
        ProcessRow(envs[n], row);
        n := n + 1;
      }
    }

    method ProcessRow(env: Env, row: Row)
      modifies this`players, this`offers, this`left
      ensures Now() == Expire(old(Now()), catalog, env, row)
    {
      var moved := LeaveTable(row.id, Expired);
      if !moved {
        return;
      }
      var o := row.offer;
      if o.owner !in players {
        return;
      }
      if o.sell {
        if o.item !in catalog || !env.otherLoaded {
          return;
        }
        AddToInbox(o.owner, o.item, o.tier, o.amount, if catalog[o.item].stackable then 100 else 1);
      } else {
        AddToBank(o.owner, o.price * o.amount);
      }
    }
  }

  function ExpireAll(envs: seq<Env>): seq<Event> {
    if envs == [] then [] else [ExpireNext(envs[0])] + ExpireAll(envs[1..])
  }
}
