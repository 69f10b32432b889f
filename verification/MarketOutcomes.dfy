// When a step of the market goes through, and what it leaves behind
// (src/game/game.cpp:8421-8992, src/io/iomarket.cpp:145-220).
module MarketOutcomes {
  import opened Arithmetic
  import opened Market

  // --------------------------------------------------------------------
  // What a player can hand in
  // --------------------------------------------------------------------

  /** The pieces of an item and tier that lie in front of the first one that cannot be removed. */
  function InReach(l: seq<Stack>, x: ItemId, tier: nat): nat {
    if l == [] then 0
    else if l[0].item != x || l[0].tier != tier || !l[0].marketable then InReach(l[1..], x, tier)
    else if !l[0].removable then 0
    else l[0].count + InReach(l[1..], x, tier)
  }

  predicate AllMovable(l: seq<Stack>, x: ItemId, tier: nat) {
    forall k :: 0 <= k < |l| && l[k].item == x && l[k].tier == tier && l[k].marketable ==> l[k].removable
  }

  /** Store coins are on the account. Of a stackable item, stash and locker together have enough. Pieces that do
      not stack must all come from one of the two, or the locker must hold exactly what the stash lacks. */
  predicate CanHandIn(s: State, cat: Catalog, g: Guid, x: ItemId, tier: nat, amount: nat)
    requires Present(s, g) && x in cat
  {
    var p := s.players[g];
    var stashed, reach := if x in p.stash then p.stash[x] else 0, InReach(p.locker, x, tier);
    if x == STORE_COIN then amount <= s.accounts[p.account]
    else if cat[x].stackable then amount <= stashed + reach
    else if stashed == 0 then amount <= reach
    else amount <= stashed || (amount == stashed + reach && AllMovable(p.locker, x, tier))
  }

  lemma {:induction false} TakeStacksDone(l: seq<Stack>, x: ItemId, tier: nat, need: nat)
    ensures var r := TakeStacks(l, x, tier, need);
      !r.failed && r.left == 0 <==> need <= InReach(l, x, tier)
  {
    if l != [] && need > 0 {
      TakeStacksDone(l[1..], x, tier, if Listed(l[0], x, tier) then need - Min(need, l[0].count) else need);
    }
  }

  lemma {:induction false} TakeSinglesDone(l: seq<Stack>, x: ItemId, tier: nat, amount: nat, count: nat, need: nat)
    requires Single(l, x) && count <= amount < U16 && need < U16
    ensures var r, reach := TakeSingles(l, x, tier, amount, count, need), InReach(l, x, tier);
      !r.failed && r.left == 0 <==>
        if amount - count <= reach then need == amount - count else AllMovable(l, x, tier) && need == reach
  {
    if l != [] {
      assert Single(l[1..], x);
      assert AllMovable(l, x, tier) <==> (Listed(l[0], x, tier) ==> l[0].removable) && AllMovable(l[1..], x, tier) by {
        MovableNext(l, x, tier);
      }
      if !Listed(l[0], x, tier) {
        TakeSinglesDone(l[1..], x, tier, amount, count, need);
      } else if count < amount && l[0].removable {
        TakeSinglesDone(l[1..], x, tier, amount, count + 1, (need + U16 - 1) % U16);
      }
    }
  }

  lemma MovableNext(l: seq<Stack>, x: ItemId, tier: nat)
    requires l != []
    ensures AllMovable(l, x, tier) <==> (Listed(l[0], x, tier) ==> l[0].removable) && AllMovable(l[1..], x, tier)
  {
    if (Listed(l[0], x, tier) ==> l[0].removable) && AllMovable(l[1..], x, tier) {
      forall k | 0 <= k < |l| && Listed(l[k], x, tier) ensures l[k].removable {
        if k > 0 {
          assert l[k] == l[1..][k - 1];
        }
      }
    }
  }

  lemma {:induction false} NothingInReach(l: seq<Stack>, x: ItemId, tier: nat)
    requires !AnyListed(l, x, tier)
    ensures InReach(l, x, tier) == 0
  {
    if l != [] {
      assert !Listed(l[0], x, tier);
      forall i | 0 <= i < |l[1..]| ensures !Listed(l[1..][i], x, tier) {
        assert l[1..][i] == l[i + 1];
      }
      NothingInReach(l[1..], x, tier);
    }
  }

  /** Handing in succeeds exactly when the player can. */
  lemma HandsInIfCan(s: State, cat: Catalog, g: Guid, x: ItemId, tier: nat, amount: nat)
    requires Present(s, g) && x in cat && amount < U16 && Whole(s, cat, g, x)
    ensures Collect(s, cat, g, x, tier, amount).1 <==> CanHandIn(s, cat, g, x, tier, amount)
  {
    hide TakeStacks, TakeSingles, InReach, AllMovable, AnyListed, Single;
    if x != STORE_COIN {
      var (q, need) := FromStash(s.players[g], x, amount);
      if !AnyListed(q.locker, x, tier) {
        NothingInReach(q.locker, x, tier);
      }
      if cat[x].stackable {
        TakeStacksDone(q.locker, x, tier, need);
      } else {
        TakeSinglesDone(q.locker, x, tier, amount, 0, need);
      }
    }
  }

  // --------------------------------------------------------------------
  // Tiers
  // --------------------------------------------------------------------

  /** The pieces of an item and tier in a locker. */
  function TierTotal(l: seq<Stack>, x: ItemId, tier: nat): nat {
    if l == [] then 0 else (if l[0].item == x && l[0].tier == tier then l[0].count else 0) + TierTotal(l[1..], x, tier)
  }

  lemma {:induction false} TierConcat(a: seq<Stack>, b: seq<Stack>, x: ItemId, tier: nat)
    ensures TierTotal(a + b, x, tier) == TierTotal(a, x, tier) + TierTotal(b, x, tier)
  {
    if a == [] {
      assert a + b == b;
    } else {
      assert (a + b)[1..] == a[1..] + b;
      TierConcat(a[1..], b, x, tier);
    }
  }

  lemma {:induction false} SplitTier(x: ItemId, tier: nat, amount: nat, size: nat, y: ItemId, t: nat)
    requires size > 0
    ensures TierTotal(Split(x, tier, amount, size), y, t) == if y == x && t == tier then amount else 0
  {
    if amount > 0 {
      var n := Min(size, amount);
      SplitTier(x, tier, amount - n, size, y, t);
      TierConcat([Stack(x, tier, n, true, true)], Split(x, tier, amount - n, size), y, t);
    }
  }

  lemma KeepTier(k: Stack, r: Taken, y: ItemId, t: nat)
    ensures TierTotal(Keep(k, r).locker, y, t) ==
      (if k.item == y && k.tier == t then k.count else 0) + TierTotal(r.locker, y, t)
  {
    assert ([k] + r.locker)[1..] == r.locker;
    assert [] + r.locker == r.locker;
  }

  /** Only pieces of the item and tier are taken from the locker, and they are as many as the need fell by. */
  lemma {:induction false} TakeStacksTier(l: seq<Stack>, x: ItemId, tier: nat, need: nat, y: ItemId, t: nat)
    ensures var r := TakeStacks(l, x, tier, need);
      (y != x || t != tier ==> TierTotal(r.locker, y, t) == TierTotal(l, y, t)) &&
      (y == x && t == tier && !r.failed ==> TierTotal(r.locker, y, t) + need == TierTotal(l, y, t) + r.left)
  {
    if l != [] && need > 0 {
      if !Listed(l[0], x, tier) {
        TakeStacksTier(l[1..], x, tier, need, y, t);
        KeepTier(l[0], TakeStacks(l[1..], x, tier, need), y, t);
      } else {
        var n := Min(need, l[0].count);
        TakeStacksTier(l[1..], x, tier, need - n, y, t);
        KeepTier(l[0].(count := l[0].count - n), TakeStacks(l[1..], x, tier, need - n), y, t);
      }
    }
  }

  lemma {:induction false} TakeSinglesTier(l: seq<Stack>, x: ItemId, tier: nat, amount: nat, count: nat, need: nat,
                                           y: ItemId, t: nat)
    requires y != x || t != tier
    ensures TierTotal(TakeSingles(l, x, tier, amount, count, need).locker, y, t) == TierTotal(l, y, t)
    decreases |l|
  {
    if l != [] {
      if !Listed(l[0], x, tier) {
        TakeSinglesTier(l[1..], x, tier, amount, count, need, y, t);
        KeepTier(l[0], TakeSingles(l[1..], x, tier, amount, count, need), y, t);
      } else if count + l[0].count <= amount && l[0].removable {
        TakeSinglesTier(l[1..], x, tier, amount, count + l[0].count, (need + U16 - 1) % U16, y, t);
      }
    }
  }

  /** Whatever is handed in, the locker keeps every piece of another item or another tier. */
  lemma HandsInTier(s: State, cat: Catalog, g: Guid, x: ItemId, tier: nat, amount: nat, y: ItemId, t: nat)
    requires Present(s, g) && x in cat && (y != x || t != tier)
    ensures var u := Collect(s, cat, g, x, tier, amount).0;
      u.players.Keys == s.players.Keys && TierTotal(u.players[g].locker, y, t) == TierTotal(s.players[g].locker, y, t)
  {
    hide TakeStacks, TakeSingles, TierTotal, AnyListed;
    if x != STORE_COIN {
      var (q, need) := FromStash(s.players[g], x, amount);
      if cat[x].stackable {
        TakeStacksTier(q.locker, x, tier, need, y, t);
      } else {
        TakeSinglesTier(q.locker, x, tier, amount, 0, need, y, t);
      }
    }
  }

  /** The pieces delivered are in the inbox, with the tier of the offer; store coins are on the account. */
  lemma DeliveredTier(s: State, cat: Catalog, g: Guid, x: ItemId, tier: nat, amount: nat, y: ItemId, t: nat)
    requires Present(s, g) && x in cat
    ensures var u := Deliver(s, cat, g, x, tier, amount);
      Present(u, g) && u.players[g] == s.players[g].(locker := u.players[g].locker) &&
      TierTotal(u.players[g].locker, y, t) ==
        TierTotal(s.players[g].locker, y, t) + if x != STORE_COIN && y == x && t == tier then amount else 0
  {
    hide TierTotal, Split;
    if x != STORE_COIN {
      SplitTier(x, tier, amount, StackSize(cat, x), y, t);
      TierConcat(s.players[g].locker, Split(x, tier, amount, StackSize(cat, x)), y, t);
    }
  }

  lemma {:induction false} FullStacks(x: ItemId, tier: nat, amount: nat, size: nat)
    requires size > 0
    ensures forall k :: 0 <= k < |Split(x, tier, amount, size)| - 1 ==> Split(x, tier, amount, size)[k].count == size
  {
    if amount > 0 {
      FullStacks(x, tier, amount - Min(size, amount), size);
    }
  }

  /** They lie behind what was there, in as few stacks as they can: all but the last one are full. */
  lemma DeliveredStacks(s: State, cat: Catalog, g: Guid, x: ItemId, tier: nat, amount: nat, k: nat)
    requires Present(s, g) && x in cat
    ensures var was, now := s.players[g].locker, Deliver(s, cat, g, x, tier, amount).players[g].locker;
      (k < |was| ==> |was| <= |now| && now[k] == was[k]) &&
      (|was| <= k < |now| - 1 ==> now[k].count == if cat[x].stackable then cat[x].stackSize else 1) &&
      (|was| <= k < |now| ==> now[k].item == x && now[k].tier == tier && now[k].marketable && now[k].removable)
  {
    FullStacks(x, tier, amount, StackSize(cat, x));
    FreshStacks(x, tier, amount, StackSize(cat, x));
  }

  lemma {:induction false} FreshStacks(x: ItemId, tier: nat, amount: nat, size: nat)
    requires size > 0
    ensures forall k :: 0 <= k < |Split(x, tier, amount, size)| ==>
      Split(x, tier, amount, size)[k].marketable && Split(x, tier, amount, size)[k].removable
  {
    if amount > 0 {
      FreshStacks(x, tier, amount - Min(size, amount), size);
    }
  }

  /** Between the two states h has got the pieces: store coins on the account, all else in the locker. */
  predicate Received(s: State, t: State, h: Guid, x: ItemId, tier: nat, amount: nat) {
    Present(s, h) && Present(t, h) && t.players[h].account == s.players[h].account &&
    if x == STORE_COIN then t.accounts[s.players[h].account] == s.accounts[s.players[h].account] + amount
    else TierTotal(t.players[h].locker, x, tier) == TierTotal(s.players[h].locker, x, tier) + amount
  }

  lemma DeliverReceived(s: State, u: State, cat: Catalog, h: Guid, x: ItemId, tier: nat, amount: nat)
    requires Present(s, h) && Present(u, h) && x in cat && u.players[h].account == s.players[h].account
    requires u.players[h].locker == s.players[h].locker
    requires u.accounts[s.players[h].account] == s.accounts[s.players[h].account]
    ensures Received(s, Deliver(u, cat, h, x, tier, amount), h, x, tier, amount)
  {
    hide TierTotal, Split;
    DeliveredTier(u, cat, h, x, tier, amount, x, tier);
  }

  lemma StillReceived(s: State, t: State, u: State, h: Guid, x: ItemId, tier: nat, amount: nat)
    requires Received(s, t, h, x, tier, amount) && u.accounts == t.accounts
    requires h in u.players && u.players[h] == t.players[h].(bank := u.players[h].bank)
    ensures Received(s, u, h, x, tier, amount)
  {
  }

  // --------------------------------------------------------------------
  // The fee and the limits
  // --------------------------------------------------------------------

  /** One gold piece for every hundred of the price, for each piece; at least 20 and at most 100000 in all. */
  lemma FeeBounds(price: nat, amount: nat)
    ensures var fee, percent := Fee(price, amount), price / 100 * amount;
      20 <= fee <= 100000 && (20 <= percent <= 100000 ==> fee == percent) &&
      (percent < 20 ==> fee == 20) && (percent > 100000 ==> fee == 100000)
    ensures 100 * (price / 100 * amount) <= price * amount <= 100 * (price / 100 * amount) + 99 * amount
  {
    Hundreds(price / 100, price % 100, amount);
  }

  lemma Hundreds(hundreds: nat, rest: nat, amount: nat)
    requires rest <= 99
    ensures 100 * (hundreds * amount) <= (100 * hundreds + rest) * amount <= 100 * (hundreds * amount) + 99 * amount
  {
    assert (100 * hundreds + rest) * amount == 100 * (hundreds * amount) + rest * amount;
    assert 0 <= rest * amount && 0 <= (99 - rest) * amount;
  }

  /** The amounts an offer may have, and a player may accept: 64000 of what stacks, 2000 of what does not. */
  predicate WithinLimit(cat: Catalog, x: ItemId, amount: nat)
    requires x in cat
  {
    0 < amount <= if cat[x].stackable then 64000 else 2000
  }

  // --------------------------------------------------------------------
  // Creating
  // --------------------------------------------------------------------

  /** An offer is created exactly when its maker is there and admitted, price, item and amount are allowed, and
      the maker has the gold, and for a sell offer a locker and the pieces. */
  lemma CreateSucceeds(s: State, cat: Catalog, env: Env, o: Offer)
    requires o.sell && o.item in cat && o.owner in s.players ==> Whole(s, cat, o.owner, o.item)
    ensures Create(s, cat, env, o).nextId != s.nextId <==>
      o.owner in s.players && s.players[o.owner].account in s.accounts && env.admitted &&
      0 < o.price <= 999999999999 && o.item in cat && cat[o.item].tradeable && WithinLimit(cat, o.item, o.amount) &&
      var p, fee := s.players[o.owner], Fee(o.price, o.amount);
      if o.sell then fee <= p.bank + p.coins && env.hasLocker && CanHandIn(s, cat, o.owner, o.item, o.tier, o.amount)
      else o.price * o.amount + fee <= p.bank + p.coins
  {
    hide Fee, Collect, CanHandIn, Whole, Paid;
    if CreateAllowed(s, cat, env, o.owner, o) && o.sell {
      HandsInIfCan(s, cat, o.owner, o.item, o.tier, o.amount);
      CollectChanges(s, cat, o.owner, o.item, o.tier, o.amount);
    }
  }

  /** Only the locker and the account can change by a delivery. */
  lemma DeliverKeeps(s: State, cat: Catalog, g: Guid, x: ItemId, tier: nat, amount: nat)
    requires Present(s, g) && x in cat
    ensures var t := Deliver(s, cat, g, x, tier, amount);
      t.players.Keys == s.players.Keys && t.offers == s.offers && t.left == s.left && t.nextId == s.nextId &&
      forall h <- s.players :: t.players[h] == s.players[h].(locker := t.players[h].locker)
  {
    hide Split;
  }

  lemma CollectKeeps(s: State, cat: Catalog, g: Guid, x: ItemId, tier: nat, amount: nat)
    requires Present(s, g) && x in cat
    ensures var t := Collect(s, cat, g, x, tier, amount).0;
      t.players.Keys == s.players.Keys && t.offers == s.offers && t.left == s.left && t.nextId == s.nextId &&
      t.pending == s.pending &&
      Present(t, g) && t.players[g] == s.players[g].(locker := t.players[g].locker, stash := t.players[g].stash) &&
      (forall h <- s.players :: h != g ==> t.players[h] == s.players[h]) && t.accounts.Keys == s.accounts.Keys &&
      forall a <- s.accounts :: a != s.players[g].account ==> t.accounts[a] == s.accounts[a]
  {
    hide TakeStacks, TakeSingles, AnyListed;
  }

  lemma PaidFromCoins(p: Player, cost: nat, dropped: nat)
    requires cost <= p.bank + p.coins
    ensures var q := Paid(p, cost, true, dropped);
      q.bank == p.bank - (if cost > p.coins then cost - p.coins else 0) && q.ground >= p.ground &&
      q.coins + q.ground == p.ground + if cost > p.coins then 0 else p.coins - cost
  {
  }

  /** The carried coins pay first and the bank pays what they lack; the offer stands under the next id. */
  lemma CreateOutcome(s: State, cat: Catalog, env: Env, o: Offer)
    requires Create(s, cat, env, o).nextId != s.nextId
    ensures var t := Create(s, cat, env, o);
      t.nextId == s.nextId + 1 && t.offers == s.offers[s.nextId := o] && t.left == s.left && t.pending == s.pending &&
      o.owner in s.players && o.owner in t.players &&
      var p, q := s.players[o.owner], t.players[o.owner];
      var cost := Fee(o.price, o.amount) + if o.sell then 0 else o.price * o.amount;
      q.bank == p.bank - (if cost > p.coins then cost - p.coins else 0) &&
      q.coins + q.ground == p.ground + (if cost > p.coins then 0 else p.coins - cost) && q.ground >= p.ground
  {
    hide Fee, Collect, Paid, AmountAllowed;
    var cost := Fee(o.price, o.amount) + if o.sell then 0 else o.price * o.amount;
    PaidFromCoins(s.players[o.owner], cost, env.dropped);
    if o.sell {
      CollectKeeps(s, cat, o.owner, o.item, o.tier, o.amount);
      var t := Collect(s, cat, o.owner, o.item, o.tier, o.amount).0;
      PaidFromCoins(t.players[o.owner], cost, env.dropped);
    }
  }

  /** An offer that is not created leaves everything as it was, unless handing in the pieces fails half way. */
  lemma NotCreated(s: State, cat: Catalog, env: Env, o: Offer)
    requires Create(s, cat, env, o).nextId == s.nextId
    requires !o.sell || o.item == STORE_COIN || !env.hasLocker || o.owner !in s.players ||
             Fee(o.price, o.amount) > s.players[o.owner].bank + s.players[o.owner].coins
    ensures Create(s, cat, env, o) == s
  {
    hide Fee, RemoveOfferItems, Paid;
  }

  // --------------------------------------------------------------------
  // Cancelling
  // --------------------------------------------------------------------

  /** A player who is there and admitted cancels its own offer; the item of a sell offer must still have a type. */
  predicate MayCancel(s: State, cat: Catalog, env: Env, g: Guid, i: OfferId) {
    g in s.players && s.players[g].account in s.accounts && env.admitted &&
    i in s.offers && s.offers[i].owner == g && (s.offers[i].sell ==> s.offers[i].item in cat)
  }

  /** Then the offer is gone, and price times amount is in the bank, or the pieces in the inbox or on the account. */
  lemma CancelOutcome(s: State, cat: Catalog, env: Env, g: Guid, i: OfferId)
    requires MayCancel(s, cat, env, g, i)
    ensures var t := Cancel(s, cat, env, g, i);
      t.offers == s.offers - {i} && t.nextId == s.nextId && t.pending == s.pending &&
      i in t.left && t.left == s.left[i := t.left[i]] && t.left[i] != [] && t.left[i][|t.left[i]| - 1] == Cancelled
    ensures var t, o, p := Cancel(s, cat, env, g, i), s.offers[i], s.players[g];
      OnlyBy(s, t, g) && t.players[g] == p.(bank := t.players[g].bank, locker := t.players[g].locker) &&
      t.players[g].bank == p.bank + (if o.sell then 0 else o.price * o.amount) &&
      TierTotal(t.players[g].locker, o.item, o.tier) ==
        TierTotal(p.locker, o.item, o.tier) + (if o.sell && o.item != STORE_COIN then o.amount else 0) &&
      t.accounts[p.account] == s.accounts[p.account] + if o.sell && o.item == STORE_COIN then o.amount else 0
  {
    hide TierTotal, Split;
    var o := s.offers[i];
    if o.sell {
      DeliveredTier(s, cat, g, o.item, o.tier, o.amount, o.item, o.tier);
    }
  }

  lemma NotCancelled(s: State, cat: Catalog, env: Env, g: Guid, i: OfferId)
    requires !MayCancel(s, cat, env, g, i)
    ensures Cancel(s, cat, env, g, i) == s
  {
  }

  // --------------------------------------------------------------------
  // Accepting
  // --------------------------------------------------------------------

  /** Both are there, on different accounts; the amount is allowed and no more than the offer holds; and who buys
      has the gold, or who sells has a locker and the pieces. */
  predicate MayAccept(s: State, cat: Catalog, env: Env, g: Guid, i: OfferId, amount: nat) {
    g in s.players && s.players[g].account in s.accounts && env.admitted && env.otherLoaded && i in s.offers &&
    var o := s.offers[i];
    o.item in cat && WithinLimit(cat, o.item, amount) && amount <= o.amount &&
    o.owner in s.players && s.players[o.owner].account in s.accounts && o.owner != g &&
    s.players[o.owner].account != s.players[g].account &&
    if o.sell then o.price * amount <= s.players[g].bank + s.players[g].coins
    else env.hasLocker && CanHandIn(s, cat, g, o.item, o.tier, amount)
  }

  /** The amount leaves the offer, which goes when nothing is left of it; the gold lands in the seller's bank. */
  predicate AcceptedAs(s: State, t: State, g: Guid, i: OfferId, amount: nat)
    requires i in s.offers && g in s.players && s.offers[i].owner in s.players && amount <= s.offers[i].amount
  {
    var o := s.offers[i];
    var h, price := o.owner, o.price * amount;
    g in t.players && h in t.players && t.nextId == s.nextId &&
    (if amount == o.amount then
       t.offers == s.offers - {i} && i in t.left && t.left == s.left[i := t.left[i]] &&
       t.left[i] != [] && t.left[i][|t.left[i]| - 1] == Accepted
     else t.left == s.left && t.offers == s.offers[i := o.(amount := o.amount - amount)]) &&
    if o.sell then
      t.players[h].bank == s.players[h].bank + price &&
      t.players[g].bank == (if price <= s.players[g].bank then s.players[g].bank - price else 0)
    else
      t.players[h].bank == s.players[h].bank && t.players[g].bank == s.players[g].bank + price
  }

  lemma ShrunkAs(s: State, u: State, g: Guid, i: OfferId, amount: nat)
    requires i in s.offers && g in s.players && s.offers[i].owner in s.players && amount <= s.offers[i].amount
    requires u.offers == s.offers && u.left == s.left && u.nextId == s.nextId
    requires var o := s.offers[i];
      var h, price := o.owner, o.price * amount;
      g in u.players && h in u.players &&
      if o.sell then
        u.players[h].bank == s.players[h].bank + price &&
        u.players[g].bank == (if price <= s.players[g].bank then s.players[g].bank - price else 0)
      else
        u.players[h].bank == s.players[h].bank && u.players[g].bank == s.players[g].bank + price
    ensures AcceptedAs(s, Shrink(u, i, amount), g, i, amount)
  {
  }

  lemma BoughtAs(s: State, cat: Catalog, env: Env, g: Guid, i: OfferId, amount: nat)
    requires AcceptAllowed(s, cat, env, g, i, amount) && s.offers[i].sell
    requires s.offers[i].price * amount <= s.players[g].bank + s.players[g].coins
    ensures AcceptedAs(s, BuyFrom(s, cat, env, g, i, amount), g, i, amount)
  {
    hide AcceptedAs, Deliver, Shrink, AmountAllowed;
    var o, p := s.offers[i], s.players[g];
    var price := o.price * amount;
    var t := s.(players := s.players[g := Buy(p, price, env.dropped)]);
    DeliverKeeps(t, cat, g, o.item, o.tier, amount);
    ShrunkAs(s, Deposit(Deliver(t, cat, g, o.item, o.tier, amount), o.owner, price), g, i, amount);
  }

  lemma SoldAs(s: State, cat: Catalog, env: Env, g: Guid, i: OfferId, amount: nat)
    requires AcceptAllowed(s, cat, env, g, i, amount) && !s.offers[i].sell && env.hasLocker
    requires Collect(s, cat, g, s.offers[i].item, s.offers[i].tier, amount).1
    ensures AcceptedAs(s, SellTo(s, cat, env, g, i, amount), g, i, amount)
  {
    hide AcceptedAs, Collect, Deliver, Shrink, AmountAllowed;
    var o := s.offers[i];
    CollectKeeps(s, cat, g, o.item, o.tier, amount);
    CollectChanges(s, cat, g, o.item, o.tier, amount);
    var u := Deposit(Collect(s, cat, g, o.item, o.tier, amount).0, g, o.price * amount);
    DeliverKeeps(u, cat, o.owner, o.item, o.tier, amount);
    ShrunkAs(s, Deliver(u, cat, o.owner, o.item, o.tier, amount), g, i, amount);
  }

  lemma BoughtReceived(s: State, cat: Catalog, env: Env, g: Guid, i: OfferId, amount: nat)
    requires AcceptAllowed(s, cat, env, g, i, amount) && s.offers[i].sell
    requires s.offers[i].price * amount <= s.players[g].bank + s.players[g].coins
    ensures Received(s, BuyFrom(s, cat, env, g, i, amount), g, s.offers[i].item, s.offers[i].tier, amount)
  {
    hide Deliver, AmountAllowed, Received;
    var o, p := s.offers[i], s.players[g];
    var price := o.price * amount;
    var t := s.(players := s.players[g := Buy(p, price, env.dropped)]);
    DeliverReceived(s, t, cat, g, o.item, o.tier, amount);
    DeliverKeeps(t, cat, g, o.item, o.tier, amount);
    var u := Deliver(t, cat, g, o.item, o.tier, amount);
    StillReceived(s, u, BuyFrom(s, cat, env, g, i, amount), g, o.item, o.tier, amount);
  }

  lemma SoldReceived(s: State, cat: Catalog, env: Env, g: Guid, i: OfferId, amount: nat)
    requires AcceptAllowed(s, cat, env, g, i, amount) && !s.offers[i].sell && env.hasLocker
    requires Collect(s, cat, g, s.offers[i].item, s.offers[i].tier, amount).1
    ensures var o := s.offers[i];
      Received(s, SellTo(s, cat, env, g, i, amount), o.owner, o.item, o.tier, amount)
  {
    hide Collect, Deliver, AmountAllowed, Received;
    var o := s.offers[i];
    CollectKeeps(s, cat, g, o.item, o.tier, amount);
    var u := Deposit(Collect(s, cat, g, o.item, o.tier, amount).0, g, o.price * amount);
    DeliverReceived(s, u, cat, o.owner, o.item, o.tier, amount);
    DeliverKeeps(u, cat, o.owner, o.item, o.tier, amount);
    StillReceived(s, Deliver(u, cat, o.owner, o.item, o.tier, amount), SellTo(s, cat, env, g, i, amount), o.owner,
      o.item, o.tier, amount);
  }

  /** The pieces of an accepted offer end up with who bought them, with the tier of the offer. */
  lemma AcceptReceived(s: State, cat: Catalog, env: Env, g: Guid, i: OfferId, amount: nat)
    requires MayAccept(s, cat, env, g, i, amount) && (s.offers[i].sell || Whole(s, cat, g, s.offers[i].item))
    ensures var o := s.offers[i];
      Received(s, Accept(s, cat, env, g, i, amount), if o.sell then g else o.owner, o.item, o.tier, amount)
  {
    hide Collect, CanHandIn, Whole, SellTo, BuyFrom, Received;
    if s.offers[i].sell {
      BoughtReceived(s, cat, env, g, i, amount);
    } else {
      HandsInIfCan(s, cat, g, s.offers[i].item, s.offers[i].tier, amount);
      SoldReceived(s, cat, env, g, i, amount);
    }
  }

  /** Accepting goes through exactly when it may. */
  lemma AcceptSucceeds(s: State, cat: Catalog, env: Env, g: Guid, i: OfferId, amount: nat)
    requires i in s.offers && g in s.players && s.offers[i].item in cat && !s.offers[i].sell ==>
             Whole(s, cat, g, s.offers[i].item)
    ensures var t := Accept(s, cat, env, g, i, amount);
      t.offers != s.offers <==> MayAccept(s, cat, env, g, i, amount)
    ensures MayAccept(s, cat, env, g, i, amount) ==> AcceptedAs(s, Accept(s, cat, env, g, i, amount), g, i, amount)
  {
    hide AcceptedAs, Collect, CanHandIn, Whole, SellTo, BuyFrom;
    if AcceptAllowed(s, cat, env, g, i, amount) {
      if s.offers[i].sell {
        BoughtIfCan(s, cat, env, g, i, amount);
      } else {
        SoldIfCan(s, cat, env, g, i, amount);
      }
    }
  }

  lemma AcceptedShrinks(s: State, t: State, g: Guid, i: OfferId, amount: nat)
    requires i in s.offers && g in s.players && s.offers[i].owner in s.players && 0 < amount <= s.offers[i].amount
    requires AcceptedAs(s, t, g, i, amount)
    ensures t.offers != s.offers
  {
    if amount != s.offers[i].amount {
      assert t.offers[i].amount != s.offers[i].amount;
    } else {
      assert i !in t.offers;
    }
  }

  lemma BoughtIfCan(s: State, cat: Catalog, env: Env, g: Guid, i: OfferId, amount: nat)
    requires AcceptAllowed(s, cat, env, g, i, amount) && s.offers[i].sell
    ensures var t := BuyFrom(s, cat, env, g, i, amount);
      if s.offers[i].price * amount <= s.players[g].bank + s.players[g].coins
      then AcceptedAs(s, t, g, i, amount) && t.offers != s.offers else t == s
  {
    hide AcceptedAs, Deliver, Shrink, Buy;
    if s.offers[i].price * amount <= s.players[g].bank + s.players[g].coins {
      BoughtAs(s, cat, env, g, i, amount);
      AcceptedShrinks(s, BuyFrom(s, cat, env, g, i, amount), g, i, amount);
    }
  }

  lemma SoldIfCan(s: State, cat: Catalog, env: Env, g: Guid, i: OfferId, amount: nat)
    requires AcceptAllowed(s, cat, env, g, i, amount) && !s.offers[i].sell && Whole(s, cat, g, s.offers[i].item)
    ensures var t := SellTo(s, cat, env, g, i, amount);
      if env.hasLocker && CanHandIn(s, cat, g, s.offers[i].item, s.offers[i].tier, amount)
      then AcceptedAs(s, t, g, i, amount) && t.offers != s.offers else t.offers == s.offers
  {
    hide AcceptedAs, Collect, Deliver, Shrink, Whole, CanHandIn;
    var o := s.offers[i];
    HandsInIfCan(s, cat, g, o.item, o.tier, amount);
    CollectKeeps(s, cat, g, o.item, o.tier, amount);
    if env.hasLocker && CanHandIn(s, cat, g, o.item, o.tier, amount) {
      SoldAs(s, cat, env, g, i, amount);
      AcceptedShrinks(s, SellTo(s, cat, env, g, i, amount), g, i, amount);
    }
  }

  /** An acceptance that may not go through changes nothing, unless handing in the pieces fails half way. */
  lemma NotAccepted(s: State, cat: Catalog, env: Env, g: Guid, i: OfferId, amount: nat)
    requires !MayAccept(s, cat, env, g, i, amount)
    requires i in s.offers ==> s.offers[i].sell || s.offers[i].item == STORE_COIN || !env.hasLocker
    ensures Accept(s, cat, env, g, i, amount) == s
  {
    hide Deliver, Shrink, Buy, RemoveOfferItems;
  }

  /** What an acceptance moves: the price from the buyer, or from the offer, to the seller, and the pieces from the
      offer, or from the seller, to the buyer; of nothing else, and of nobody else. */
  lemma AcceptBalances(s: State, cat: Catalog, env: Env, g: Guid, i: OfferId, amount: nat, y: ItemId)
    requires MayAccept(s, cat, env, g, i, amount) && (s.offers[i].sell || Whole(s, cat, g, s.offers[i].item))
    ensures var t, h := Accept(s, cat, env, g, i, amount), s.offers[i].owner;
      Present(t, g) && Present(t, h) &&
      forall k <- s.players :: k != g && k != h ==> k in t.players && t.players[k] == s.players[k]
    ensures var t, o := Accept(s, cat, env, g, i, amount), s.offers[i];
      var h, price, pieces := o.owner, o.price * amount, if y == o.item then amount else 0;
      var was, now, wasH, nowH := s.players[g], t.players[g], s.players[h], t.players[h];
      now.bank + now.coins + now.ground == was.bank + was.coins + was.ground + (if o.sell then -price else price) &&
      nowH.bank + nowH.coins + nowH.ground == wasH.bank + wasH.coins + wasH.ground + (if o.sell then price else 0) &&
      Owned(t, g, y) == Owned(s, g, y) + (if o.sell then pieces else -pieces) &&
      Owned(t, h, y) == Owned(s, h, y) + if o.sell then 0 else pieces
  {
    hide Accept, CanHandIn, Whole, Owned, AcceptedAs;
    AcceptSucceeds(s, cat, env, g, i, amount);
    if y != s.offers[i].item || s.offers[i].sell {
      AcceptParties(s, cat, env, g, i, amount, y);
    } else {
      AcceptParties(s, cat, env, g, i, amount, s.offers[i].item);
    }
  }

  // --------------------------------------------------------------------
  // Handing in that fails half way
  // --------------------------------------------------------------------

  /** What was taken by then is gone: nothing is given back, and no offer is made or filled. */
  lemma HalfWay(s: State, cat: Catalog, env: Env, g: Guid, i: OfferId, amount: nat)
    requires AcceptAllowed(s, cat, env, g, i, amount) && !s.offers[i].sell && env.hasLocker
    requires !Collect(s, cat, g, s.offers[i].item, s.offers[i].tier, amount).1
    ensures var o := s.offers[i];
      Accept(s, cat, env, g, i, amount) == Collect(s, cat, g, o.item, o.tier, amount).0
  {
    hide Collect;
  }

  const ONE_STASHED := NOTHING_SOLD.(players := NOTHING_SOLD.players[1 := Player(1000, 0, 0, 1, map[7 := 1], [])])

  /** A player who has one piece in the stash offers two: the piece is gone, and there is no offer. */
  lemma PieceLost()
    ensures var t := Create(ONE_STASHED, TRADED, ADMITTED, ON_SALE);
      t.offers == map[] && 1 in t.players && t.players[1] == ONE_STASHED.players[1].(stash := map[])
  {
    var s, p := ONE_STASHED, ONE_STASHED.players[1];
    assert p.stash - {7} == map[];
    assert FromStash(p, 7, 2) == (p.(stash := map[]), 1);
    assert !AnyListed([], 7, 0);
    assert Collect(s, TRADED, 1, 7, 0, 2) == (s.(players := s.players[1 := p.(stash := map[])]), false);
    assert CreateAllowed(s, TRADED, ADMITTED, 1, ON_SALE);
  }

  // --------------------------------------------------------------------
  // Expiring
  // --------------------------------------------------------------------

  /** A row of an offer that has left the table does nothing; of one that is there, it takes the offer out and
      gives its owner what the row says. */
  lemma ExpireOutcome(s: State, cat: Catalog, env: Env, row: Row)
    ensures row.id !in s.offers ==> Expire(s, cat, env, row) == s
    ensures var t, i := Expire(s, cat, env, row), row.id;
      i in s.offers ==>
        t.offers == s.offers - {i} && t.nextId == s.nextId && t.pending == s.pending && t.accounts == s.accounts &&
        i in t.left && t.left == s.left[i := t.left[i]] && t.left[i] != [] && t.left[i][|t.left[i]| - 1] == Expired
    ensures var t, o := Expire(s, cat, env, row), row.offer;
      row.id in s.offers && o.owner in s.players ==>
        o.owner in t.players &&
        var p, q := s.players[o.owner], t.players[o.owner];
        q == p.(bank := q.bank, locker := q.locker) && q.bank == p.bank + (if o.sell then 0 else o.price * o.amount) &&
        TierTotal(q.locker, o.item, o.tier) == TierTotal(p.locker, o.item, o.tier) +
          if o.sell && o.item in cat && env.otherLoaded then o.amount else 0
  {
    hide TierTotal, Split;
    var o := row.offer;
    if row.id in s.offers && o.owner in s.players && o.sell && o.item in cat {
      var size := if cat[o.item].stackable then 100 else 1;
      SplitTier(o.item, o.tier, o.amount, size, o.item, o.tier);
      TierConcat(s.players[o.owner].locker, Split(o.item, o.tier, o.amount, size), o.item, o.tier);
    }
  }
}
