// When a trade starts, goes through and is called off (src/game/game.cpp:4384-4656,
// src/creatures/players/player.cpp:1610-2018).
module TradeOutcomes {
  import opened Options
  import opened Trade
  import P = Pockets

  // --------------------------------------------------------------------
  // Requests
  // --------------------------------------------------------------------

  /** Both are there and free for each other, and nothing on offer is the item, holds it or lies in it. */
  ghost predicate MayRequest(s: State, p: PlayerId, q: PlayerId, item: ItemId, admitted: bool) {
    p in s.traders && q in s.traders && p != q && admitted &&
    (forall i: ItemId :: i in s.tradeItems ==> i != item && (i, item) !in s.inside && (item, i) !in s.inside) &&
    (s.traders[p].stage == Idle || (s.traders[p].stage == Acknowledged && s.traders[p].partner == Some(q))) &&
    (s.traders[q].stage == Idle || s.traders[q].partner == Some(p))
  }

  /** Then the item is on offer, its owner has initiated, and a partner who was idle has acknowledged; any other
      request changes nothing. */
  lemma RequestOutcome(s: State, p: PlayerId, q: PlayerId, item: ItemId, admitted: bool)
    ensures var t := Request(s, p, q, item, admitted);
      if MayRequest(s, p, q, item, admitted) then
        t.tradeItems == s.tradeItems[item := p] && t.held == s.held && t.inside == s.inside &&
        t.traders.Keys == s.traders.Keys && t.traders[p] == Trader(Initiated, Some(q), Some(item)) &&
        t.traders[q] == (if s.traders[q].stage == Idle then Trader(Acknowledged, Some(p), s.traders[q].item)
                         else s.traders[q]) &&
        forall r <- s.traders :: r != p && r != q ==> t.traders[r] == s.traders[r]
      else t == s
  {
    assert Entangled(s, item) <==> exists i: ItemId :: i in s.tradeItems && Clash(item, i, s.inside);
    if MayRequest(s, p, q, item, admitted) {
      assert !Entangled(s, item);
    }
  }

  // --------------------------------------------------------------------
  // Acceptances
  // --------------------------------------------------------------------

  /** The player has a trade to accept, and its partner is there and in reach. */
  predicate MayAccept(s: State, p: PlayerId, a: Answers) {
    p in s.traders && (s.traders[p].stage == Acknowledged || s.traders[p].stage == Initiated) &&
    s.traders[p].partner.Some? && s.traders[p].partner.value in s.traders && a.inReach
  }

  /** The first acceptance is only noted. The second one ends the trade for both; the items have changed hands if the
      callbacks allow it. */
  lemma AcceptOutcome(s: State, p: PlayerId, a: Answers)
    requires Valid(s)
    ensures !MayAccept(s, p, a) ==> Accept(s, p, a) == s
    ensures MayAccept(s, p, a) ==>
      var t, q := Accept(s, p, a), s.traders[p].partner.value;
      t.inside == s.inside && q != p &&
      if s.traders[q].stage != Accepted then t == s.(traders := s.traders[p := s.traders[p].(stage := Accepted)])
      else
        t.traders == s.traders[p := NOT_TRADING][q := NOT_TRADING] &&
        t.tradeItems == s.tradeItems - Offers(s, p) - Offers(s, q) &&
        t.held == if a.allowed then HandedOver(s, p, q, FirstLeaves(a.deal), SecondFollows(a.deal)) else s.held
  {
    hide Swap, Apart, Books, FirstLeaves, SecondFollows;
    if MayAccept(s, p, a) {
      var q := s.traders[p].partner.value;
      Mutual(s, p);
      var t := Set(s, p, s.traders[p].(stage := Accepted));
      if s.traders[q].stage == Accepted {
        CloseIsFreed(t, p);
        FreedOffers(t, p, q);
        ExchangeTraders(t, p, q, a);
        SwapHandsOver(Unregister(Unregister(t, t.traders[p].item), t.traders[q].item), s, p, q, a);
      }
    }
  }

  lemma Mutual(s: State, p: PlayerId)
    requires Valid(s) && p in s.traders && s.traders[p].partner.Some?
    ensures var q := s.traders[p].partner.value;
      q != p && q in s.traders && s.traders[q].partner == Some(p) &&
      s.traders[p].stage != Transferring && s.traders[q].stage != Transferring
  {
    assert Sound(s, p);
    assert Sound(s, s.traders[p].partner.value);
  }

  function Offers(s: State, p: PlayerId): set<ItemId>
    requires p in s.traders
  {
    if s.traders[p].item.Some? then {s.traders[p].item.value} else {}
  }

  lemma FreedOffers(s: State, p: PlayerId, q: PlayerId)
    requires p in s.traders && q in s.traders && p != q
    ensures var t := Freed(s, p, q);
      t.traders == s.traders[p := NOT_TRADING][q := NOT_TRADING] && t.held == s.held && t.inside == s.inside &&
      t.tradeItems == s.tradeItems - Offers(s, p) - Offers(s, q)
  {
  }

  /** Both items pass the test, and the first one may be taken and finds a place with the partner. */
  predicate FirstLeaves(d: Deal) {
    d.removable && P.Admits(d.partner, d.yours.thing, d.mine) && P.Admits(d.player, d.mine.thing, d.yours) &&
    P.Receives(d.partner, d.yours.thing, d.mine, Some(d.yours.thing))
  }

  /** The second one then finds a place with the player. */
  predicate SecondFollows(d: Deal) {
    P.Receives(P.Lighter(d.player, d.mine.thing), d.mine.thing, d.yours, None)
  }

  /** Who holds what after an exchange that is allowed. */
  ghost function HandedOver(s: State, p: PlayerId, q: PlayerId, leaves: bool, follows: bool): map<ItemId, PlayerId>
    requires p in s.traders && q in s.traders
  {
    var mine, yours := s.traders[p].item, s.traders[q].item;
    if mine.None? || yours.None? || !leaves then s.held
    else if follows then s.held[mine.value := q][yours.value := p]
    else s.held[mine.value := q]
  }

  lemma SwapHandsOver(t: State, s: State, p: PlayerId, q: PlayerId, a: Answers)
    requires p in s.traders && q in s.traders && t.held == s.held
    ensures Swap(t, p, q, s.traders[p].item, s.traders[q].item, a).held ==
      HandedOver(s, p, q, FirstLeaves(a.deal), SecondFollows(a.deal))
  {
    hide P.Admits, P.Receives, P.Lighter;
    assert FirstLeaves(a.deal) <==> FirstMoves(a.deal);
    assert SecondFollows(a.deal) <==> SecondMoves(a.deal);
  }

  // --------------------------------------------------------------------
  // Closing and leaving
  // --------------------------------------------------------------------

  /** Closing, and leaving the game, end the trade for both sides and take both offers off the registry. */
  lemma CloseOutcome(s: State, p: PlayerId)
    requires Valid(s) && p in s.traders
    ensures var t := After(s, CloseTrade(p));
      t.held == s.held && t.inside == s.inside &&
      if s.traders[p].partner.None? then t == s
      else
        var q := s.traders[p].partner.value;
        q in s.traders && t.traders == s.traders[p := NOT_TRADING][q := NOT_TRADING] &&
        t.tradeItems == s.tradeItems - Offers(s, p) - Offers(s, q)
    ensures var t := After(s, CloseTrade(p)); After(s, LogOut(p)) == t.(traders := t.traders - {p})
  {
    assert Sound(s, p);
    if s.traders[p].partner.Some? {
      Mutual(s, p);
      CloseIsFreed(s, p);
      FreedOffers(s, p, s.traders[p].partner.value);
    }
  }

  /** While the items of a trade change hands, nothing closes it, whoever of the two is asked. */
  lemma TransferStands(s: State, p: PlayerId, x: ItemId, from: Option<ItemId>)
    requires p in s.traders
    requires var t := s.traders[p];
      t.stage == Transferring ||
      (t.partner.Some? && t.partner.value in s.traders && s.traders[t.partner.value].stage == Transferring)
    ensures CloseStep(s, p) == s && Check(s, p, x) == s && Miss(s, p, x, from) == s
  {
  }

  /** A player who logs in trades with nobody. */
  lemma EnterOutcome(s: State, p: PlayerId)
    requires p !in s.traders
    ensures After(s, LogIn(p)) == s.(traders := s.traders[p := Trader(Idle, None, None)])
    ensures After(s, CloseTrade(p)) == s && After(s, LogOut(p)) == s
  {
  }

  // --------------------------------------------------------------------
  // Whose trade a move calls off
  // --------------------------------------------------------------------

  /** The player offers the item that moves, or something that holds it. */
  ghost predicate Reached(s: State, p: PlayerId, x: ItemId) {
    p in s.traders && s.traders[p].item.Some? &&
    var i := s.traders[p].item.value;
    i == x || (i, x) in s.inside
  }

  /** The player offers the item x that leaves, or something that holds it, or something that lies in it; when it
      leaves a container, also something that lies in another container in there. */
  ghost predicate Lost(s: State, p: PlayerId, x: ItemId, from: Option<ItemId>) {
    p in s.traders && s.traders[p].item.Some? &&
    var i := s.traders[p].item.value;
    i == x || (i, x) in s.inside ||
    (from.None? && (x, i) in s.inside) ||
    (from.Some? && exists m: ItemId :: (from.value, m) in s.inside && (m, i) in s.inside)
  }

  /** The trades of these players are off, for both sides, and everyone else trades on. */
  ghost predicate CalledOff(s: State, t: State, off: set<PlayerId>) {
    t.inside == s.inside && t.held == s.held && t.traders.Keys == s.traders.Keys &&
    forall r <- s.traders ::
      t.traders[r] ==
        if r in off || (s.traders[r].partner.Some? && s.traders[r].partner.value in off) then NOT_TRADING
        else s.traders[r]
  }

  lemma CloseCallsOff(s: State, p: PlayerId)
    requires Books(s) && p in s.traders
    ensures CalledOff(s, Close(s, p), {p}) && Books(Close(s, p))
  {
    CloseBooks(s, p);
    assert Sound(s, p);
    forall r | r in s.traders && r != p && s.traders[r].partner == Some(p) ensures s.traders[p].partner == Some(r) {
      assert Sound(s, r);
    }
    if s.traders[p].partner.Some? {
      assert Sound(s, s.traders[p].partner.value);
    }
  }

  lemma NobodyCalledOff(s: State)
    ensures CalledOff(s, s, {})
  {
  }

  lemma CalledOffTwice(s: State, t: State, u: State, a: set<PlayerId>, b: set<PlayerId>)
    requires CalledOff(s, t, a) && CalledOff(t, u, b)
    ensures CalledOff(s, u, a + b)
  {
  }

  /** Both sides of a trade may be told, or one. */
  lemma OneSideIsEnough(s: State, t: State, few: set<PlayerId>, many: set<PlayerId>)
    requires Books(s) && CalledOff(s, t, few) && few <= many
    requires forall p <- many - few :: p in s.traders && s.traders[p].partner.Some? && s.traders[p].partner.value in few
    ensures CalledOff(s, t, many)
  {
    forall r | r in s.traders && s.traders[r].partner.Some? && s.traders[r].partner.value in many - few
      ensures r in few
    {
      assert Sound(s, r);
    }
  }

  lemma CheckCallsOff(s: State, p: PlayerId, x: ItemId)
    requires Books(s)
    ensures CalledOff(s, Check(s, p, x), if Reached(s, p, x) then {p} else {}) && Books(Check(s, p, x))
  {
    hide Close, CalledOff;
    NobodyCalledOff(s);
    if p in s.traders {
      assert Sound(s, p);
      CloseCallsOff(s, p);
    }
  }

  lemma MissCallsOff(s: State, p: PlayerId, x: ItemId, from: Option<ItemId>)
    requires Books(s)
    ensures CalledOff(s, Miss(s, p, x, from), if Lost(s, p, x, from) then {p} else {}) && Books(Miss(s, p, x, from))
  {
    hide Close, CalledOff;
    NobodyCalledOff(s);
    if p in s.traders {
      assert Sound(s, p);
      CloseCallsOff(s, p);
      CloseBooks(s, p);
      if from.Some? && s.traders[p].item.Some? {
        DeeperOrNot(s, from.value, s.traders[p].item.value);
      }
    }
  }

  lemma DeeperOrNot(s: State, c: ItemId, i: ItemId)
    ensures Deeper(s.inside, c, i) <==> exists m: ItemId :: (c, m) in s.inside && (m, i) in s.inside
  {
    if m: ItemId :| (c, m) in s.inside && (m, i) in s.inside {
      var pair := (c, m);
      assert pair in s.inside;
    }
  }

  /** Of those who have been told, exactly those whose item is concerned have called off. */
  lemma {:induction false} MissAllCallsOff(s: State, told: seq<PlayerId>, x: ItemId, from: Option<ItemId>)
    requires Books(s)
    ensures CalledOff(s, MissAll(s, told, x, from), set p | p in told && Lost(s, p, x, from))
    ensures Books(MissAll(s, told, x, from))
    decreases |told|
  {
    var all := set p | p in told && Lost(s, p, x, from);
    if told == [] {
      NobodyCalledOff(s);
      assert all == {};
    } else {
      hide Books, CalledOff, Miss;
      var t := Miss(s, told[0], x, from);
      var a, b := if Lost(s, told[0], x, from) then {told[0]} else {}, set p | p in told[1..] && Lost(t, p, x, from);
      MissCallsOff(s, told[0], x, from);
      MissAllCallsOff(t, told[1..], x, from);
      CalledOffTwice(s, t, MissAll(s, told, x, from), a, b);
      forall p ensures p in a + b ==> p in all
        ensures p in all && p !in a + b ==>
          p in s.traders && s.traders[p].partner.Some? && s.traders[p].partner.value in a + b
      {
        LostOnce(s, t, a, p, x, from);
      }
      OneSideIsEnough(s, MissAll(s, told, x, from), a + b, all);
    }
  }

  /** What has been called off is not called off again. */
  lemma LostOnce(s: State, t: State, a: set<PlayerId>, p: PlayerId, x: ItemId, from: Option<ItemId>)
    requires CalledOff(s, t, a)
    ensures Lost(t, p, x, from) ==> Lost(s, p, x, from)
    ensures Lost(s, p, x, from) && !Lost(t, p, x, from) && p !in a ==>
      p in s.traders && s.traders[p].partner.Some? && s.traders[p].partner.value in a
    ensures Reached(t, p, x) ==> Reached(s, p, x)
    ensures Reached(s, p, x) && !Reached(t, p, x) && p !in a ==>
      p in s.traders && s.traders[p].partner.Some? && s.traders[p].partner.value in a
  {
  }

  lemma {:induction false} CheckAllCallsOff(s: State, told: seq<PlayerId>, x: ItemId)
    requires Books(s)
    ensures CalledOff(s, CheckAll(s, told, x), set p | p in told && Reached(s, p, x))
    ensures Books(CheckAll(s, told, x))
    decreases |told|
  {
    var all := set p | p in told && Reached(s, p, x);
    if told == [] {
      NobodyCalledOff(s);
      assert all == {};
    } else {
      hide Books, CalledOff, Check;
      var t := Check(s, told[0], x);
      var a, b := if Reached(s, told[0], x) then {told[0]} else {}, set p | p in told[1..] && Reached(t, p, x);
      CheckCallsOff(s, told[0], x);
      CheckAllCallsOff(t, told[1..], x);
      CalledOffTwice(s, t, CheckAll(s, told, x), a, b);
      forall p ensures p in a + b ==> p in all
        ensures p in all && p !in a + b ==>
          p in s.traders && s.traders[p].partner.Some? && s.traders[p].partner.value in a + b
      {
        LostOnce(s, t, a, p, x, None);
      }
      OneSideIsEnough(s, CheckAll(s, told, x), a + b, all);
    }
  }

  /** After all of `missed` have been told that x leaves, none of them offers x, nor what holds x, nor what lies in
      x; or, when x leaves a container, what lies in another container in there. */
  lemma MissAllClears(s: State, missed: seq<PlayerId>, x: ItemId, from: Option<ItemId>, i: ItemId)
    requires Books(s)
    ensures var t := MissAll(s, missed, x, from);
      i in t.tradeItems ==>
        i in s.tradeItems && t.tradeItems[i] == s.tradeItems[i] &&
        (t.tradeItems[i] in missed ==>
          i != x && (i, x) !in s.inside && (from.None? ==> (x, i) !in s.inside) &&
          (from.Some? ==> forall m: ItemId :: (from.value, m) in s.inside ==> (m, i) !in s.inside))
  {
    hide Close;
    var t := MissAll(s, missed, x, from);
    MissAllCallsOff(s, missed, x, from);
    if i in t.tradeItems {
      assert Offered(t, i);
      assert Sound(s, t.tradeItems[i]);
    }
  }

  /** The players whose trade a move calls off: they see x leave and lose by it, or see it arrive in what they offer. */
  ghost function Losers(s: State, e: Event): set<PlayerId>
    requires e.Moved?
  {
    var moved := s.(inside := Put(s.inside, e.item, e.up));
    (set p | p in e.missed && Lost(s, p, e.item, e.from)) + set p | p in e.seen && Reached(moved, p, e.item)
  }

  /** A move calls off exactly these trades, for both sides. */
  lemma MoveCallsOff(s: State, e: Event)
    requires Books(s) && e.Moved?
    ensures var t := After(s, e);
      t.traders.Keys == s.traders.Keys && Books(t) &&
      forall r <- s.traders ::
        t.traders[r] ==
          if r in Losers(s, e) || (s.traders[r].partner.Some? && s.traders[r].partner.value in Losers(s, e))
          then NOT_TRADING else s.traders[r]
  {
    hide Books, MissAll, CheckAll, Pass, Put;
    var x := e.item;
    var m := MissAll(s, e.missed, x, e.from);
    var moved := s.(inside := Put(s.inside, x, e.up));
    var n := m.(inside := Put(m.inside, x, e.up), held := Pass(m.held, Carried(m.inside, x), e.holder));
    MissAllCallsOff(s, e.missed, x, e.from);
    SameTraders(m, n);
    CheckAllCallsOff(n, e.seen, x);
    var a, b := set p | p in e.missed && Lost(s, p, x, e.from), set p | p in e.seen && Reached(n, p, x);
    var c := set p | p in e.seen && Reached(moved, p, x);
    Elsewhere(s, m, n, CheckAll(n, e.seen, x), a, b);
    forall p ensures Reached(n, p, x) ==> Reached(moved, p, x)
      ensures Reached(moved, p, x) && !Reached(n, p, x) && p !in a ==>
        p in s.traders && s.traders[p].partner.Some? && s.traders[p].partner.value in a
    {
      SeenOnce(s, m, n, moved, a, p, x);
    }
    assert a + b <= Losers(s, e);
    BothOrOne(s, CheckAll(n, e.seen, x), a + b, Losers(s, e));
  }

  lemma Elsewhere(s: State, m: State, n: State, t: State, a: set<PlayerId>, b: set<PlayerId>)
    requires CalledOff(s, m, a) && n.traders == m.traders && CalledOff(n, t, b)
    ensures CalledOff(s, t.(inside := s.inside, held := s.held), a + b)
  {
  }

  lemma SeenOnce(s: State, m: State, n: State, moved: State, a: set<PlayerId>, p: PlayerId, x: ItemId)
    requires CalledOff(s, m, a) && n.traders == m.traders && moved.traders == s.traders && n.inside == moved.inside
    ensures Reached(n, p, x) ==> Reached(moved, p, x)
    ensures Reached(moved, p, x) && !Reached(n, p, x) && p !in a ==>
      p in s.traders && s.traders[p].partner.Some? && s.traders[p].partner.value in a
  {
  }

  lemma BothOrOne(s: State, t: State, few: set<PlayerId>, many: set<PlayerId>)
    requires Books(s) && CalledOff(s, t.(inside := s.inside, held := s.held), few) && few <= many
    requires forall p <- many - few :: p in s.traders && s.traders[p].partner.Some? && s.traders[p].partner.value in few
    ensures t.traders.Keys == s.traders.Keys
    ensures forall r <- s.traders ::
      t.traders[r] ==
        if r in many || (s.traders[r].partner.Some? && s.traders[r].partner.value in many) then NOT_TRADING
        else s.traders[r]
  {
    OneSideIsEnough(s, t.(inside := s.inside, held := s.held), few, many);
  }

  /** The item leaves what it was in, with all that is in it, and is in the containers `up`; who carries it then
      carries all of it. */
  lemma MoveOutcome(s: State, e: Event, a: ItemId, d: ItemId)
    requires Books(s) && e.Moved?
    ensures var t := After(s, e);
      var within, outside := d == e.item || (e.item, d) in s.inside, a != e.item && (e.item, a) !in s.inside;
      ((a, d) in t.inside <==> ((a, d) in s.inside && !(within && outside)) || (a in e.up && within)) &&
      (d in t.held <==> if within then e.holder.Some? else d in s.held) &&
      (d in t.held ==> t.held[d] == if within then e.holder.value else s.held[d])
  {
    hide Books, MissAll, CheckAll, CalledOff;
    var x := e.item;
    MissAllCallsOff(s, e.missed, x, e.from);
    var m := MissAll(s, e.missed, x, e.from);
    var n := m.(inside := Put(m.inside, x, e.up), held := Pass(m.held, Carried(m.inside, x), e.holder));
    SameTraders(m, n);
    CheckAllCallsOff(n, e.seen, x);
    CalledOffPlaces(s, m, set p | p in e.missed && Lost(s, p, x, e.from));
    CalledOffPlaces(n, CheckAll(n, e.seen, x), set p | p in e.seen && Reached(n, p, x));
    PutAt(s.inside, x, e.up, a, d);
  }

  lemma CalledOffPlaces(s: State, t: State, off: set<PlayerId>)
    requires CalledOff(s, t, off)
    ensures t.inside == s.inside && t.held == s.held
  {
  }

  lemma PutAt(inside: set<(ItemId, ItemId)>, x: ItemId, up: set<ItemId>, a: ItemId, d: ItemId)
    ensures d in Carried(inside, x) <==> d == x || (x, d) in inside
    ensures var within, outside := d == x || (x, d) in inside, a != x && (x, a) !in inside;
      (a, d) in Put(inside, x, up) <==> ((a, d) in inside && !(within && outside)) || (a in up && within)
  {
    assert d in Carried(inside, x) <==> d == x || (x, d) in inside by {
      CarriedAt(inside, x, d);
    }
    assert a in Carried(inside, x) <==> a == x || (x, a) in inside by {
      CarriedAt(inside, x, a);
    }
  }

  lemma CarriedAt(inside: set<(ItemId, ItemId)>, x: ItemId, d: ItemId)
    ensures d in Carried(inside, x) <==> d == x || (x, d) in inside
  {
    if (x, d) in inside {
      var pair := (x, d);
      assert pair in inside && pair.1 == d;
    }
  }

  /** In any run: when an item leaves, a trader who is told and whose offer is that item, holds it or lies in it no
      longer trades, nor does its partner, and neither offer is on the registry any more. */
  lemma LeavingEndsTrade(s: State, run: seq<Event>, e: Event, p: PlayerId, i: ItemId)
    requires Valid(s) && WitnessedRun(s, run + [e]) && e.Moved? && p in e.missed
    requires var t := AfterRun(s, run);
      p in t.traders && t.traders[p].item == Some(i) &&
      (i == e.item || (i, e.item) in t.inside || (e.from.None? && (e.item, i) in t.inside) ||
       (e.from.Some? && exists m: ItemId :: (e.from.value, m) in t.inside && (m, i) in t.inside))
    ensures var t, u := AfterRun(s, run), AfterRun(s, run + [e]);
      p in u.traders && u.traders[p] == NOT_TRADING && i !in u.tradeItems &&
      t.traders[p].partner.Some? && t.traders[p].partner.value in u.traders &&
      u.traders[t.traders[p].partner.value] == NOT_TRADING
  {
    hide After, Witnessed, Valid;
    OneMore(s, run, e);
    RunValid(s, run);
    EndsHere(AfterRun(s, run), e, p, i);
  }

  lemma EndsHere(t: State, e: Event, p: PlayerId, i: ItemId)
    requires Valid(t) && e.Moved? && p in e.missed && p in t.traders && t.traders[p].item == Some(i)
    requires Lost(t, p, e.item, e.from)
    ensures var u := After(t, e);
      p in u.traders && u.traders[p] == NOT_TRADING && i !in u.tradeItems &&
      t.traders[p].partner.Some? && t.traders[p].partner.value in u.traders &&
      u.traders[t.traders[p].partner.value] == NOT_TRADING
  {
    hide After, Lost;
    MoveCallsOff(t, e);
    var u := After(t, e);
    assert p in Losers(t, e);
    assert Sound(t, p);
    assert Sound(t, t.traders[p].partner.value);
    OneOwner(t, p, i);
    AllOffered(u);
  }

  lemma AllOffered(s: State)
    requires Books(s)
    ensures forall i <- s.tradeItems :: s.tradeItems[i] in s.traders && s.traders[s.tradeItems[i]].item == Some(i)
  {
    forall i | i in s.tradeItems ensures s.tradeItems[i] in s.traders && s.traders[s.tradeItems[i]].item == Some(i) {
      assert Offered(s, i);
    }
  }

  lemma OneOwner(s: State, p: PlayerId, i: ItemId)
    requires Books(s) && p in s.traders && s.traders[p].item == Some(i)
    ensures forall r <- s.traders :: s.traders[r].item == Some(i) ==> r == p
  {
    assert Sound(s, p);
    forall r | r in s.traders && s.traders[r].item == Some(i) ensures r == p {
      assert Sound(s, r);
    }
  }

  lemma {:induction false} OneMore(s: State, run: seq<Event>, e: Event)
    requires WitnessedRun(s, run + [e])
    ensures WitnessedRun(s, run) && AfterRun(s, run + [e]) == After(AfterRun(s, run), e)
    decreases |run|
  {
    hide After, Witnessed;
    if run == [] {
      assert ([] + [e])[1..] == [] && ([] + [e])[0] == e;
      assert AfterRun(After(s, e), []) == After(s, e);
    } else {
      assert (run + [e])[1..] == run[1..] + [e];
      OneMore(After(s, run[0]), run[1..], e);
    }
  }
}
