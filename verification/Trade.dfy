// Trading between two players: the states of both sides and the registry of
// the items on offer (src/game/game.cpp:4383-4656, 4748-4796).
module Trade {
  import opened Options
  import P = Pockets

  type PlayerId = nat
  type ItemId = nat

  datatype Stage = Idle | Initiated | Accepted | Acknowledged | Transferring

  /** tradeState, tradePartner and tradeItem of a player. */
  datatype Trader = Trader(stage: Stage, partner: Option<PlayerId>, item: Option<ItemId>)

  const NOT_TRADING := Trader(Idle, None, None)

  datatype State = State(
    traders: map<PlayerId, Trader>,
    tradeItems: map<ItemId, PlayerId>,   // the items on offer, and who offers them
    held: map<ItemId, PlayerId>,         // who carries an item now
    inside: set<(ItemId, ItemId)>        // (container, item inside it at any depth)
  )

  // --------------------------------------------------------------------
  // The steps
  // --------------------------------------------------------------------

  function Set(s: State, p: PlayerId, t: Trader): State {
    s.(traders := s.traders[p := t])
  }

  function Unregister(s: State, item: Option<ItemId>): State {
    if item.None? then s else s.(tradeItems := s.tradeItems - {item.value})
  }

  /** One side of internalCloseTrade. */
  function Release(s: State, p: PlayerId): State
    requires p in s.traders
  {
    Set(Unregister(s, s.traders[p].item), p, NOT_TRADING)
  }

  predicate InTransfer(s: State, p: PlayerId)
    requires p in s.traders
  {
    var t := s.traders[p];
    (t.partner.Some? && t.partner.value in s.traders && s.traders[t.partner.value].stage == Transferring) ||
    t.stage == Transferring
  }

  /** internalCloseTrade */
  function Close(s: State, p: PlayerId): State
    requires p in s.traders
  {
    var partner := s.traders[p].partner;
    if InTransfer(s, p) then s
    else if partner.Some? && partner.value in s.traders then Release(Release(s, p), partner.value)
    else Release(s, p)
  }

  predicate Clash(item: ItemId, i: ItemId, inside: set<(ItemId, ItemId)>) {
    i == item || (item, i) in inside || (i, item) in inside
  }

  /** The item is on offer already, inside one that is, or around one. */
  predicate Entangled(s: State, item: ItemId) {
    exists i <- s.tradeItems :: Clash(item, i, s.inside)
  }

  predicate MayStart(s: State, p: PlayerId, q: PlayerId)
    requires p in s.traders && q in s.traders
  {
    var a, b := s.traders[p], s.traders[q];
    (a.stage == Idle || (a.stage == Acknowledged && a.partner == Some(q))) &&
    (b.stage == Idle || b.partner == Some(p))
  }

  /** internalStartTrade */
  function Start(s: State, p: PlayerId, q: PlayerId, item: ItemId): State
    requires p in s.traders && q in s.traders && p != q
  {
    if !MayStart(s, p, q) then s else
    var t := Set(s, p, Trader(Initiated, Some(q), Some(item))).(tradeItems := s.tradeItems[item := p]);
    if s.traders[q].stage == Idle then Set(t, q, s.traders[q].(stage := Acknowledged, partner := Some(p))) else t
  }

  /** playerRequestTrade; `admitted` stands for position, ownership, size and callback checks. */
  function Request(s: State, p: PlayerId, q: PlayerId, item: ItemId, admitted: bool): State {
    if p !in s.traders || q !in s.traders || p == q || !admitted || Entangled(s, item) then s
    else Start(s, p, q, item)
  }

  /** What an exchange finds: the items on offer, what both players wear and carry, and whether the items may be taken
      from where they are. */
  datatype Deal = Deal(mine: P.Item, yours: P.Item, player: P.Belongings, partner: P.Belongings, removable: bool)

  /** Both items pass the test. */
  predicate BothFit(d: Deal) {
    P.Admits(d.partner, d.yours.thing, d.mine) && P.Admits(d.player, d.mine.thing, d.yours)
  }

  /** The partner has a place for the first item, which is not in the second one. */
  predicate FirstMoves(d: Deal) {
    BothFit(d) && d.removable && P.Receives(d.partner, d.yours.thing, d.mine, Some(d.yours.thing))
  }

  /** When the first item has left, its owner has a place for the second one. */
  predicate SecondMoves(d: Deal) {
    P.Receives(P.Lighter(d.player, d.mine.thing), d.mine.thing, d.yours, None)
  }

  /** What the callbacks answer, and the goods. */
  datatype Answers = Answers(inReach: bool, allowed: bool, deal: Deal)

  function Hand(s: State, item: Option<ItemId>, p: PlayerId): State {
    if item.None? then s else s.(held := s.held[item.value := p])
  }

  /** Both sides have accepted: the items change hands if they can, and the trade is over. */
  function Exchange(s: State, p: PlayerId, q: PlayerId, a: Answers): State
    requires p in s.traders && q in s.traders
  {
    var mine, yours := s.traders[p].item, s.traders[q].item;
    var t := Unregister(Unregister(s, mine), yours);
    Set(Set(Swap(t, p, q, mine, yours, a), p, NOT_TRADING), q, NOT_TRADING)
  }

  /** The items move, the second one only if the first has moved; nobody looks whether the second did. */
  function Swap(s: State, p: PlayerId, q: PlayerId, mine: Option<ItemId>, yours: Option<ItemId>, a: Answers): State {
    if mine.Some? && yours.Some? && FirstMoves(a.deal) then
      var t := Hand(s, mine, q);
      if SecondMoves(a.deal) then Hand(t, yours, p) else t
    else s
  }

  /** playerAcceptTrade */
  function Accept(s: State, p: PlayerId, a: Answers): State {
    if p !in s.traders || (s.traders[p].stage != Acknowledged && s.traders[p].stage != Initiated) then s else
    var partner := s.traders[p].partner;
    if partner.None? || partner.value !in s.traders || !a.inReach then s else
    var t := Set(s, p, s.traders[p].(stage := Accepted));
    if t.traders[partner.value].stage != Accepted then t
    else if !a.allowed then Close(t, p)
    else Exchange(t, p, partner.value, a)
  }

  function CloseStep(s: State, p: PlayerId): State {
    if p in s.traders then Close(s, p) else s
  }

  /** A player logs in, or out; logging out closes the trade first. */
  function Enter(s: State, p: PlayerId): State {
    if p in s.traders then s else Set(s, p, NOT_TRADING)
  }

  function Leave(s: State, p: PlayerId): State {
    if p !in s.traders then s else
    var t := Close(s, p);
    t.(traders := t.traders - {p})
  }

  // --------------------------------------------------------------------
  // Items that move while they are on offer
  // --------------------------------------------------------------------

  predicate Holds(inside: set<(ItemId, ItemId)>, i: ItemId, x: ItemId) {
    i == x || (i, x) in inside
  }

  /** The item on offer lies deeper in the container than directly in it. */
  predicate Deeper(inside: set<(ItemId, ItemId)>, container: ItemId, i: ItemId) {
    exists pair <- inside :: pair.0 == container && (pair.1, i) in inside
  }

  /** checkTradeState: the player calls the trade off if the item is the one on offer or is in it. */
  predicate Alarmed(s: State, p: PlayerId, x: ItemId) {
    p in s.traders && s.traders[p].item.Some? && s.traders[p].stage != Transferring &&
    Holds(s.inside, s.traders[p].item.value, x)
  }

  function Check(s: State, p: PlayerId, x: ItemId): State {
    if Alarmed(s, p, x) then Close(s, p) else s
  }

  /** When an item leaves a container, the player also calls off if the item on offer lies deeper in that container;
      when it leaves a tile or a slot, if the item on offer is in it. */
  predicate Bereft(s: State, p: PlayerId, x: ItemId, from: Option<ItemId>) {
    p in s.traders && s.traders[p].item.Some? && s.traders[p].stage != Transferring &&
    var i := s.traders[p].item.value;
    match from
    case None => (x, i) in s.inside
    case Some(container) => Deeper(s.inside, container, i)
  }

  function Miss(s: State, p: PlayerId, x: ItemId, from: Option<ItemId>): State {
    var t := Check(s, p, x);
    if Bereft(t, p, x, from) then Close(t, p) else t
  }

  function MissAll(s: State, players: seq<PlayerId>, x: ItemId, from: Option<ItemId>): State
    decreases |players|
  {
    if players == [] then s else MissAll(Miss(s, players[0], x, from), players[1..], x, from)
  }

  function CheckAll(s: State, players: seq<PlayerId>, x: ItemId): State
    decreases |players|
  {
    if players == [] then s else CheckAll(Check(s, players[0], x), players[1..], x)
  }

  /** The item and all that is in it. */
  function Carried(inside: set<(ItemId, ItemId)>, x: ItemId): set<ItemId> {
    {x} + set pair <- inside | pair.0 == x :: pair.1
  }

  /** The item, with what is in it, leaves what it was in and is now in the containers `up`. */
  function Put(inside: set<(ItemId, ItemId)>, x: ItemId, up: set<ItemId>): set<(ItemId, ItemId)> {
    var carried := Carried(inside, x);
    (set pair <- inside | pair.1 !in carried || pair.0 in carried) + set a <- up, d <- carried :: (a, d)
  }

  function Pass(held: map<ItemId, PlayerId>, items: set<ItemId>, holder: Option<PlayerId>): map<ItemId, PlayerId> {
    if holder.None? then held - items else held + map i <- items :: holder.value
  }

  /** An item moves: the players around learn that it leaves, and where it has arrived. */
  function Move(s: State, x: ItemId, from: Option<ItemId>, up: set<ItemId>, holder: Option<PlayerId>,
                missed: seq<PlayerId>, seen: seq<PlayerId>): State {
    var t := MissAll(s, missed, x, from);
    CheckAll(t.(inside := Put(t.inside, x, up), held := Pass(t.held, Carried(t.inside, x), holder)), seen, x)
  }

  // --------------------------------------------------------------------
  // The invariant
  // --------------------------------------------------------------------

  predicate Registered(s: State, p: PlayerId)
    requires p in s.traders
  {
    var item := s.traders[p].item;
    item.Some? ==> item.value in s.tradeItems && s.tradeItems[item.value] == p
  }

  /** What holds of one player between steps. */
  ghost predicate Sound(s: State, p: PlayerId)
    requires p in s.traders
  {
    var t := s.traders[p];
    t.stage != Transferring && (t.stage == Idle <==> t.partner == None) &&
    (t.stage == Idle || t.stage == Acknowledged ==> t.item == None) &&
    (t.stage == Initiated ==> t.item.Some?) &&
    Registered(s, p) &&
    (t.partner.Some? ==>
      var q := t.partner.value;
      q != p && q in s.traders && s.traders[q].partner == Some(p) &&
      !(t.stage == Accepted && s.traders[q].stage == Accepted) &&
      !(t.stage == Acknowledged && s.traders[q].stage == Acknowledged))
  }

  ghost predicate Offered(s: State, i: ItemId)
    requires i in s.tradeItems
  {
    s.tradeItems[i] in s.traders && s.traders[s.tradeItems[i]].item == Some(i)
  }

  ghost predicate Apart(s: State) {
    forall i <- s.tradeItems, j <- s.tradeItems :: i != j ==> (i, j) !in s.inside
  }

  ghost predicate Books(s: State) {
    (forall p {:trigger Sound(s, p)} :: p in s.traders ==> Sound(s, p)) &&
    (forall i {:trigger Offered(s, i)} :: i in s.tradeItems ==> Offered(s, i))
  }

  /** In every reachable state. */
  ghost predicate Valid(s: State) {
    Books(s) && Apart(s)
  }

  /** Items only come off the registry. */
  ghost predicate Fewer(t: State, s: State) {
    t.inside == s.inside && forall i <- t.tradeItems :: i in s.tradeItems && t.tradeItems[i] == s.tradeItems[i]
  }

  lemma FewerApart(t: State, s: State)
    requires Fewer(t, s) && Apart(s)
    ensures Apart(t)
  {
  }

  // --------------------------------------------------------------------
  // Every step keeps it
  // --------------------------------------------------------------------

  /** Both sides of a trade are set free, and their items are no longer on offer. */
  function Freed(s: State, p: PlayerId, q: PlayerId): State
    requires p in s.traders && q in s.traders
  {
    Set(Set(Unregister(Unregister(s, s.traders[p].item), s.traders[q].item), p, NOT_TRADING), q, NOT_TRADING)
  }

  lemma FreedBooks(s: State, p: PlayerId, q: PlayerId)
    requires p in s.traders && q in s.traders && p != q
    requires forall r {:trigger Sound(s, r)} :: r in s.traders && r != p && r != q ==> Sound(s, r)
    requires forall i {:trigger Offered(s, i)} :: i in s.tradeItems ==> Offered(s, i)
    requires s.traders[p].partner == Some(q) && s.traders[q].partner == Some(p)
    requires Registered(s, p) && Registered(s, q)
    ensures Books(Freed(s, p, q)) && Fewer(Freed(s, p, q), s)
  {
    var t := Freed(s, p, q);
    forall r | r in t.traders ensures Sound(t, r) {
      if r != p && r != q {
        assert Sound(s, r);
      }
    }
    forall i | i in t.tradeItems ensures Offered(t, i) {
      assert Offered(s, i);
    }
  }

  lemma CloseIsFreed(s: State, p: PlayerId)
    requires p in s.traders && !InTransfer(s, p)
    requires s.traders[p].partner.Some? && s.traders[p].partner.value in s.traders && s.traders[p].partner.value != p
    ensures Close(s, p) == Freed(s, p, s.traders[p].partner.value)
  {
  }

  lemma CloseBooks(s: State, p: PlayerId)
    requires Books(s) && p in s.traders
    ensures Books(Close(s, p)) && Fewer(Close(s, p), s)
    ensures p in Close(s, p).traders && Close(s, p).traders[p] == NOT_TRADING
    ensures var q := s.traders[p].partner;
      q.Some? ==> q.value in s.traders && Close(s, p).traders[q.value] == NOT_TRADING
    ensures Close(s, p).held == s.held
  {
    assert Sound(s, p);
    var t := s.traders[p];
    if t.partner.Some? {
      assert Sound(s, t.partner.value);
      CloseIsFreed(s, p);
      FreedBooks(s, p, t.partner.value);
    } else {
      assert Close(s, p) == s;
    }
  }

  /** Closing sets both sides free and keeps the invariant. */
  lemma CloseValid(s: State, p: PlayerId)
    requires Valid(s) && p in s.traders
    ensures Valid(Close(s, p)) && Close(s, p).traders[p] == NOT_TRADING
    ensures var q := s.traders[p].partner;
      q.Some? ==> q.value in s.traders && Close(s, p).traders[q.value] == NOT_TRADING
    ensures Close(s, p).held == s.held
  {
    hide Books, Close;
    CloseBooks(s, p);
    FewerApart(Close(s, p), s);
  }

  lemma StartValid(s: State, p: PlayerId, q: PlayerId, item: ItemId)
    requires Valid(s) && p in s.traders && q in s.traders && p != q && !Entangled(s, item)
    ensures Valid(Start(s, p, q, item))
  {
    if MayStart(s, p, q) {
      var t := Start(s, p, q, item);
      assert Sound(s, p) && Sound(s, q);
      forall r | r in t.traders ensures Sound(t, r) {
        assert Sound(s, r);
        if s.traders[r].partner.Some? {
          assert Sound(s, s.traders[r].partner.value);
        }
      }
      forall i | i in t.tradeItems ensures Offered(t, i) {
        if i != item {
          assert Offered(s, i);
        }
      }
    }
  }

  lemma ExchangeTraders(s: State, p: PlayerId, q: PlayerId, a: Answers)
    requires p in s.traders && q in s.traders
    ensures Exchange(s, p, q, a) == Freed(s, p, q).(held := Exchange(s, p, q, a).held)
  {
  }

  lemma AcceptValid(s: State, p: PlayerId, a: Answers)
    requires Valid(s)
    ensures Valid(Accept(s, p, a))
  {
    if p in s.traders && s.traders[p].partner.Some? && a.inReach {
      assert Sound(s, p);
      var q := s.traders[p].partner.value;
      assert Sound(s, q);
      var t := Set(s, p, s.traders[p].(stage := Accepted));
      forall r | r in t.traders && r != p && r != q ensures Sound(t, r) {
        assert Sound(s, r);
      }
      forall i | i in t.tradeItems ensures Offered(t, i) {
        assert Offered(s, i);
      }
      if s.traders[q].stage == Accepted {
        FreedBooks(t, p, q);
        FewerApart(Freed(t, p, q), t);
        CloseIsFreed(t, p);
        ExchangeTraders(t, p, q, a);
        var f, e := Freed(t, p, q), Exchange(t, p, q, a);
        SameBooks(f, e);
      } else {
        assert Sound(t, p) && Sound(t, q);
      }
    }
  }

  lemma SameBooks(s: State, t: State)
    requires Valid(s) && t == s.(held := t.held)
    ensures Valid(t)
  {
    forall r | r in t.traders ensures Sound(t, r) {
      assert Sound(s, r);
    }
    forall i | i in t.tradeItems ensures Offered(t, i) {
      assert Offered(s, i);
    }
  }

  lemma EnterValid(s: State, p: PlayerId)
    requires Valid(s)
    ensures Valid(Enter(s, p))
  {
    var t := Enter(s, p);
    forall r | r in t.traders ensures Sound(t, r) {
      if r in s.traders {
        assert Sound(s, r);
      }
    }
    forall i | i in t.tradeItems ensures Offered(t, i) {
      assert Offered(s, i);
    }
  }

  lemma LeaveValid(s: State, p: PlayerId)
    requires Valid(s)
    ensures Valid(Leave(s, p))
  {
    if p in s.traders {
      CloseValid(s, p);
      var c, t := Close(s, p), Leave(s, p);
      assert Sound(c, p);
      forall r | r in t.traders ensures Sound(t, r) {
        assert Sound(c, r);
      }
      forall i | i in t.tradeItems ensures Offered(t, i) {
        assert Offered(c, i);
      }
    }
  }

  // --------------------------------------------------------------------
  // No item on offer ends up in another one
  // --------------------------------------------------------------------

  lemma {:induction false} MissAllValid(s: State, players: seq<PlayerId>, x: ItemId, from: Option<ItemId>)
    requires Valid(s)
    ensures Valid(MissAll(s, players, x, from)) && Fewer(MissAll(s, players, x, from), s)
    decreases |players|
  {
    if players != [] {
      MissValid(s, players[0], x, from);
      MissAllValid(Miss(s, players[0], x, from), players[1..], x, from);
    }
  }

  lemma MissValid(s: State, p: PlayerId, x: ItemId, from: Option<ItemId>)
    requires Valid(s)
    ensures Valid(Miss(s, p, x, from)) && Fewer(Miss(s, p, x, from), s)
  {
    hide Books, Close, Deeper;
    if p in s.traders {
      CloseBooks(s, p);
      FewerApart(Close(s, p), s);
      CloseBooks(Check(s, p, x), p);
      FewerApart(Close(Check(s, p, x), p), Check(s, p, x));
    }
  }

  lemma CheckClears(s: State, p: PlayerId, x: ItemId)
    requires Books(s)
    ensures Books(Check(s, p, x)) && Fewer(Check(s, p, x), s)
    ensures forall i <- Check(s, p, x).tradeItems :: s.tradeItems[i] == p ==> !Holds(s.inside, i, x)
  {
    hide Close;
    var t := Check(s, p, x);
    if p in s.traders {
      assert Sound(s, p);
      CloseBooks(s, p);
    }
    forall i | i in t.tradeItems && s.tradeItems[i] == p ensures !Holds(s.inside, i, x) {
      assert Offered(s, i) && Offered(t, i);
    }
  }

  lemma {:induction false} CheckAllClears(s: State, players: seq<PlayerId>, x: ItemId)
    requires Books(s)
    ensures Books(CheckAll(s, players, x)) && Fewer(CheckAll(s, players, x), s)
    ensures forall i <- CheckAll(s, players, x).tradeItems :: s.tradeItems[i] in players ==> !Holds(s.inside, i, x)
    decreases |players|
  {
    if players != [] {
      hide Books, Check, Holds;
      CheckClears(s, players[0], x);
      CheckAllClears(Check(s, players[0], x), players[1..], x);
    }
  }

  lemma SameTraders(s: State, t: State)
    requires Books(s) && t.traders == s.traders && t.tradeItems == s.tradeItems
    ensures Books(t)
  {
    forall r | r in t.traders ensures Sound(t, r) {
      assert Sound(s, r);
    }
    forall i | i in t.tradeItems ensures Offered(t, i) {
      assert Offered(s, i);
    }
  }

  /** Whatever moves, and wherever to, no item on offer is in another one afterwards: the trade of whoever offers the
      container is off. */
  lemma MoveValid(s: State, x: ItemId, from: Option<ItemId>, up: set<ItemId>, holder: Option<PlayerId>,
                  missed: seq<PlayerId>, seen: seq<PlayerId>)
    requires Valid(s) && forall i <- s.tradeItems :: i in up ==> s.tradeItems[i] in seen
    ensures Valid(Move(s, x, from, up, holder, missed, seen))
  {
    hide Books, CheckAll, MissAll, Pass;
    MissAllValid(s, missed, x, from);
    var t := MissAll(s, missed, x, from);
    var u := t.(inside := Put(t.inside, x, up), held := Pass(t.held, Carried(t.inside, x), holder));
    SameTraders(t, u);
    CheckAllClears(u, seen, x);
    var r := CheckAll(u, seen, x);
    forall i, j | i in r.tradeItems && j in r.tradeItems && i != j ensures (i, j) !in r.inside {
      assert i in up ==> Holds(u.inside, i, x);
    }
  }

  // --------------------------------------------------------------------
  // Runs
  // --------------------------------------------------------------------

  /** The items of an exchange end up in containers as any other item that moves: two moves follow. */
  datatype Event =
    | RequestTrade(player: PlayerId, with: PlayerId, item: ItemId, admitted: bool)
    | AcceptTrade(player: PlayerId, answers: Answers)
    | CloseTrade(player: PlayerId)
    | LogIn(player: PlayerId)
    | LogOut(player: PlayerId)
    | Moved(item: ItemId, from: Option<ItemId>, up: set<ItemId>, holder: Option<PlayerId>, missed: seq<PlayerId>,
            seen: seq<PlayerId>)

  function After(s: State, e: Event): State {
    match e
    case RequestTrade(p, q, item, admitted) => Request(s, p, q, item, admitted)
    case AcceptTrade(p, a) => Accept(s, p, a)
    case CloseTrade(p) => CloseStep(s, p)
    case LogIn(p) => Enter(s, p)
    case LogOut(p) => Leave(s, p)
    case Moved(x, from, up, holder, missed, seen) => Move(s, x, from, up, holder, missed, seen)
  }

  /** Who offers a container into which an item moves is among the players who see it arrive. */
  ghost predicate Witnessed(s: State, e: Event) {
    e.Moved? ==> forall i <- s.tradeItems :: i in e.up ==> s.tradeItems[i] in e.seen
  }

  ghost predicate WitnessedRun(s: State, run: seq<Event>)
    decreases |run|
  {
    run == [] || (Witnessed(s, run[0]) && WitnessedRun(After(s, run[0]), run[1..]))
  }

  function AfterRun(s: State, run: seq<Event>): State
    decreases |run|
  {
    if run == [] then s else AfterRun(After(s, run[0]), run[1..])
  }

  lemma AfterValid(s: State, e: Event)
    requires Valid(s) && Witnessed(s, e)
    ensures Valid(After(s, e))
  {
    match e
    case RequestTrade(p, q, item, admitted) =>
      if p in s.traders && q in s.traders && p != q && !Entangled(s, item) {
        StartValid(s, p, q, item);
      }
    case AcceptTrade(p, a) => AcceptValid(s, p, a);
    case CloseTrade(p) =>
      if p in s.traders {
        CloseValid(s, p);
      }
    case LogIn(p) => EnterValid(s, p);
    case LogOut(p) => LeaveValid(s, p);
    case Moved(x, from, up, holder, missed, seen) => MoveValid(s, x, from, up, holder, missed, seen);
  }

  /** From a sound state, every run keeps partners mutual, the registry exact and its items apart. */
  lemma {:induction false} RunValid(s: State, run: seq<Event>)
    requires Valid(s) && WitnessedRun(s, run)
    ensures Valid(AfterRun(s, run))
    decreases |run|
  {
    if run != [] {
      AfterValid(s, run[0]);
      RunValid(After(s, run[0]), run[1..]);
    }
  }

  // --------------------------------------------------------------------
  // What a side has seen when it accepts
  // --------------------------------------------------------------------

  /** The state, what the partner offered when a player accepted, and the players whose partner has made its offer
      since. */
  datatype Record = Record(s: State, seen: map<PlayerId, Option<ItemId>>, late: set<PlayerId>)

  predicate Accepts(s: State, p: PlayerId, a: Answers) {
    p in s.traders && (s.traders[p].stage == Acknowledged || s.traders[p].stage == Initiated) && a.inReach &&
    s.traders[p].partner.Some? && s.traders[p].partner.value in s.traders
  }

  predicate Starts(s: State, p: PlayerId, q: PlayerId, item: ItemId, admitted: bool) {
    p in s.traders && q in s.traders && p != q && admitted && !Entangled(s, item) && MayStart(s, p, q)
  }

  function Watch(r: Record, e: Event): Record {
    var t := After(r.s, e);
    match e
    case AcceptTrade(p, a) =>
      if Accepts(r.s, p, a)
      then Record(t, r.seen[p := r.s.traders[r.s.traders[p].partner.value].item], r.late - {p}) else r.(s := t)
    case RequestTrade(p, q, item, admitted) =>
      if Starts(r.s, p, q, item, admitted) && r.s.traders[q].stage == Accepted
      then Record(t, r.seen, r.late + {q}) else r.(s := t)
    case _ => r.(s := t)
  }

  function WatchRun(r: Record, run: seq<Event>): Record
    decreases |run|
  {
    if run == [] then r else WatchRun(Watch(r, run[0]), run[1..])
  }

  /** Who accepted has seen the offer that stands, unless it came later: then there was none to see. */
  ghost predicate Aware(r: Record, q: PlayerId) {
    q in r.s.traders && r.s.traders[q].stage == Accepted ==>
      q in r.seen && r.s.traders[q].partner.Some? && r.s.traders[q].partner.value in r.s.traders &&
      var item := r.s.traders[r.s.traders[q].partner.value].item;
      if q in r.late then r.seen[q] == None && item.Some? else r.seen[q] == item
  }

  ghost predicate AllAware(r: Record) {
    forall q {:trigger Aware(r, q)} :: Aware(r, q)
  }

  /** Trades are only called off. */
  ghost predicate OnlyFreed(t: State, s: State) {
    forall r <- t.traders :: r in s.traders && (t.traders[r] == s.traders[r] || t.traders[r] == NOT_TRADING)
  }

  lemma FreedAware(r: Record, t: State)
    requires AllAware(r) && Books(t) && OnlyFreed(t, r.s)
    ensures AllAware(r.(s := t))
  {
    forall q ensures Aware(r.(s := t), q) {
      assert Aware(r, q);
      if q in t.traders && t.traders[q].stage == Accepted {
        assert Sound(t, q);
        assert Sound(t, t.traders[q].partner.value);
      }
    }
  }

  lemma CloseOnlyFrees(s: State, p: PlayerId)
    requires p in s.traders
    ensures OnlyFreed(Close(s, p), s)
  {
  }

  lemma {:induction false} MissAllOnlyFrees(s: State, players: seq<PlayerId>, x: ItemId, from: Option<ItemId>)
    ensures OnlyFreed(MissAll(s, players, x, from), s)
    decreases |players|
  {
    if players != [] {
      MissOnlyFrees(s, players[0], x, from);
      MissAllOnlyFrees(Miss(s, players[0], x, from), players[1..], x, from);
    }
  }

  lemma MissOnlyFrees(s: State, p: PlayerId, x: ItemId, from: Option<ItemId>)
    ensures OnlyFreed(Miss(s, p, x, from), s)
  {
    hide Close, Deeper;
    if p in s.traders {
      CloseOnlyFrees(s, p);
      if p in Check(s, p, x).traders {
        CloseOnlyFrees(Check(s, p, x), p);
      }
    }
  }

  lemma {:induction false} CheckAllOnlyFrees(s: State, players: seq<PlayerId>, x: ItemId)
    ensures OnlyFreed(CheckAll(s, players, x), s)
    decreases |players|
  {
    if players != [] {
      if players[0] in s.traders {
        CloseOnlyFrees(s, players[0]);
      }
      CheckAllOnlyFrees(Check(s, players[0], x), players[1..], x);
    }
  }

  lemma AcceptAware(r: Record, p: PlayerId, a: Answers)
    requires AllAware(r) && Valid(r.s)
    ensures AllAware(Watch(r, AcceptTrade(p, a)))
  {
    if Accepts(r.s, p, a) {
      hide AllAware, Swap, Sound, Offered, Apart;
      AcceptValid(r.s, p, a);
      var q := r.s.traders[p].partner.value;
      assert q != p by {
        assert Sound(r.s, p);
      }
      if r.s.traders[q].stage == Accepted {
        var u := Record(r.s, r.seen[p := r.s.traders[q].item], r.late - {p});
        NotedAware(r, u, p);
        AcceptOnlyFrees(r.s, p, a);
        FreedAware(u, Accept(r.s, p, a));
      } else {
        FirstAware(r, p, a);
      }
    }
  }

  /** What is noted of a player who has not accepted yet does not matter. */
  lemma NotedAware(r: Record, u: Record, p: PlayerId)
    requires AllAware(r) && u.s == r.s && p in r.s.traders && r.s.traders[p].stage != Accepted
    requires p in u.seen && u.seen == r.seen[p := u.seen[p]] && u.late == r.late - {p}
    ensures AllAware(u)
  {
    forall q ensures Aware(u, q) {
      assert Aware(r, q);
    }
  }

  lemma AcceptOnlyFrees(s: State, p: PlayerId, a: Answers)
    requires Accepts(s, p, a) && s.traders[p].partner.value != p
    requires s.traders[s.traders[p].partner.value].stage == Accepted
    ensures OnlyFreed(Accept(s, p, a), s)
  {
    hide Exchange, Close;
    var q := s.traders[p].partner.value;
    var t := Set(s, p, s.traders[p].(stage := Accepted));
    ExchangeTraders(t, p, q, a);
    CloseOnlyFrees(t, p);
    CloseClears(t, p);
  }

  lemma CloseClears(s: State, p: PlayerId)
    requires p in s.traders && !InTransfer(s, p)
    ensures p in Close(s, p).traders ==> Close(s, p).traders[p] == NOT_TRADING
  {
  }

  /** The first side to accept sees what the other one offers. */
  lemma FirstAware(r: Record, p: PlayerId, a: Answers)
    requires AllAware(r) && Books(r.s) && Accepts(r.s, p, a)
    requires r.s.traders[p].partner.value != p && r.s.traders[r.s.traders[p].partner.value].stage != Accepted
    ensures AllAware(Watch(r, AcceptTrade(p, a)))
  {
    var t := Watch(r, AcceptTrade(p, a));
    assert t.s == Set(r.s, p, r.s.traders[p].(stage := Accepted));
    forall q ensures Aware(t, q) {
      assert Aware(r, q);
      if q in r.s.traders && r.s.traders[q].partner.Some? {
        assert Sound(r.s, q);
      }
    }
  }

  lemma RequestAware(r: Record, p: PlayerId, q: PlayerId, item: ItemId, admitted: bool)
    requires AllAware(r) && Valid(r.s)
    ensures AllAware(Watch(r, RequestTrade(p, q, item, admitted)))
  {
    var t := Watch(r, RequestTrade(p, q, item, admitted));
    if Starts(r.s, p, q, item, admitted) {
      assert Sound(r.s, p) && Sound(r.s, q);
      forall u ensures Aware(t, u) {
        assert Aware(r, u);
        if u in r.s.traders {
          assert Sound(r.s, u);
        }
      }
    }
  }

  lemma WatchAware(r: Record, e: Event)
    requires AllAware(r) && Valid(r.s) && Witnessed(r.s, e)
    ensures AllAware(Watch(r, e))
  {
    hide Books, AllAware, Accept, Request, Witnessed, CheckAll, MissAll, Close, Sound;
    var t := After(r.s, e);
    AfterValid(r.s, e);
    match e
    case RequestTrade(p, q, item, admitted) => RequestAware(r, p, q, item, admitted);
    case AcceptTrade(p, a) => AcceptAware(r, p, a);
    case CloseTrade(p) =>
      if p in r.s.traders {
        CloseOnlyFrees(r.s, p);
      }
      FreedAware(r, t);
    case LogIn(p) => EnterAware(r, p);
    case LogOut(p) =>
      if p in r.s.traders {
        CloseOnlyFrees(r.s, p);
      }
      FreedAware(r, t);
    case Moved(x, from, up, holder, missed, seen) =>
      MissAllOnlyFrees(r.s, missed, x, from);
      var u := MissAll(r.s, missed, x, from);
      CheckAllOnlyFrees(
        u.(inside := Put(u.inside, x, up), held := Pass(u.held, Carried(u.inside, x), holder)), seen, x);
      FreedAware(r, t);
  }

  lemma EnterAware(r: Record, p: PlayerId)
    requires AllAware(r) && Valid(r.s)
    ensures AllAware(r.(s := Enter(r.s, p)))
  {
    var t := r.(s := Enter(r.s, p));
    forall q ensures Aware(t, q) {
      assert Aware(r, q);
    }
  }

  /** Over every run, an offer that a side had not seen when it accepted was made after that. */
  lemma {:induction false} RunAware(r: Record, run: seq<Event>)
    requires AllAware(r) && Valid(r.s) && WitnessedRun(r.s, run)
    ensures AllAware(WatchRun(r, run)) && WatchRun(r, run).s == AfterRun(r.s, run) && Valid(AfterRun(r.s, run))
    decreases |run|
  {
    if run != [] {
      hide AllAware, Valid, After, Witnessed;
      WatchFollows(r, run[0]);
      WatchAware(r, run[0]);
      AfterValid(r.s, run[0]);
      RunAware(Watch(r, run[0]), run[1..]);
    }
  }

  lemma WatchFollows(r: Record, e: Event)
    ensures Watch(r, e).s == After(r.s, e)
  {
    hide After;
  }

  /** After a run in which nobody had accepted at its start, two sides come to an exchange: the one that accepted first
      has seen the other's offer exactly if that offer was not its first after the acceptance; else it has seen none. */
  lemma SeenUnlessLate(r: Record, run: seq<Event>, p: PlayerId, a: Answers)
    requires Valid(r.s) && WitnessedRun(r.s, run) && forall q <- r.s.traders :: r.s.traders[q].stage != Accepted
    requires var s := AfterRun(r.s, run); Accepts(s, p, a) && s.traders[s.traders[p].partner.value].stage == Accepted
    ensures var s, t := AfterRun(r.s, run), WatchRun(r, run);
      var q := s.traders[p].partner.value;
      q in t.seen && t.seen[q] == (if q in t.late then None else s.traders[p].item) &&
      (t.seen[q] == s.traders[p].item <==> q !in t.late)
  {
    RunAware(r, run);
    var t := WatchRun(r, run);
    var q := t.s.traders[p].partner.value;
    assert Aware(t, q);
    assert Sound(t.s, q) && Sound(t.s, p);
  }

  // --------------------------------------------------------------------
  // Both items change hands, or none
  // --------------------------------------------------------------------

  /** The second item cannot be moved, or has no place of its own once the first one has left. */
  ghost predicate LeftOver(d: Deal) {
    !d.yours.look.movable || !P.HasPlace(P.Lighter(d.player, d.mine.thing), d.mine.thing, d.yours)
  }

  /** An exchange hands over both items or none, exactly unless the first one leaves and the second one is left over:
      nothing looks at the answer of the second move. */
  lemma ExchangeAllOrNothing(s: State, p: PlayerId, q: PlayerId, a: Answers, mine: ItemId, yours: ItemId)
    requires p in s.traders && q in s.traders && p != q && mine != yours
    requires s.traders[p].item == Some(mine) && s.traders[q].item == Some(yours)
    requires mine in s.held && s.held[mine] == p && yours in s.held && s.held[yours] == q
    ensures var t := Exchange(s, p, q, a);
      (t.held == s.held || t.held == s.held[mine := q][yours := p]) <==> !(FirstMoves(a.deal) && LeftOver(a.deal))
  {
    hide FirstMoves, P.HasPlace, P.Receives, P.Lighter;
    P.ReceivesAfterwards(a.deal.player, a.deal.mine.thing, a.deal.yours);
    var t := Exchange(s, p, q, a);
    assert t.held[mine] == q || t.held == s.held;
    if FirstMoves(a.deal) && LeftOver(a.deal) {
      assert t.held[yours] == q && t.held[mine] == q;
      assert s.held[mine := q][yours := p][yours] == p;
    }
  }

  /** Who is left over for want of a place: a stack that an old stack let pass the test, or any item whose owner wears a
      bag past the limits, directly out of which the first item goes. For all others there is a place once the first
      item has left, even when the test found it inside that item. */
  lemma WhatIsLeftOver(d: Deal)
    requires P.SoundBelongings(d.player) && BothFit(d)
    ensures LeftOver(d) ==>
      !d.yours.look.movable || d.yours.look.stackable || P.Cramped(d.player, d.mine.thing, d.yours)
  {
    hide P.HasPlace, P.Admits, P.Lighter, P.SoundBelongings, P.Cramped;
    if !d.yours.look.stackable {
      P.AdmittedStays(d.player, d.mine.thing, d.yours);
    }
  }

  const SWORD := P.Look(1, 0, {P.Left, P.Right}, false, P.OtherWeapon, false, false, 1, true, {P.Left})
  const GOLD := P.Look(2, 0, {P.Left, P.Right}, false, P.NoWeapon, false, true, 100, true, {P.Left})
  const BAG := P.Look(3, 0, {P.Backpack}, false, P.NoWeapon, false, false, 1, true, {P.Backpack})

  /** A player with a full bag that holds eighty coins. */
  const FULL_BAG := P.Item(3, BAG, 1, 16, P.Box(1, [P.Item(4, GOLD, 80, 8, P.NoBox)]))

  /** A sword from the ground against fifty coins. */
  const SWORD_FOR_COINS := Deal(
    P.Item(1, SWORD, 1, 35, P.NoBox), P.Item(2, GOLD, 50, 5, P.NoBox),
    P.Belongings(map[P.Backpack := FULL_BAG], 100), P.Belongings(map[], 100), true)

  lemma CoinsPassTheTest()
    ensures P.Admits(SWORD_FOR_COINS.player, 1, SWORD_FOR_COINS.yours)
  {
    var player, coins := SWORD_FOR_COINS.player, SWORD_FOR_COINS.yours;
    P.OnlyBag(player, 1, coins, FULL_BAG, true, true);
    assert P.Joins(FULL_BAG.box.contents[0], coins);
    assert P.Items(FULL_BAG.box.contents) == 1;
  }

  lemma CoinsHaveNoPlace()
    ensures !P.HasPlace(P.Lighter(SWORD_FOR_COINS.player, 1), 1, SWORD_FOR_COINS.yours)
  {
    var later := P.Lighter(SWORD_FOR_COINS.player, 1);
    var coins := FULL_BAG.box.contents[0];
    assert P.Rest([coins], 1) == [P.Without(coins, 1)] + P.Rest([], 1);
    assert P.Without(FULL_BAG, 1) == FULL_BAG;
    assert later.worn == map[P.Backpack := FULL_BAG];
    assert !P.HasRoom(later.free, P.Worn(FULL_BAG), SWORD_FOR_COINS.yours);
  }

  lemma SwordHasAPlace()
    ensures P.Admits(SWORD_FOR_COINS.partner, 2, SWORD_FOR_COINS.mine)
    ensures P.Receives(SWORD_FOR_COINS.partner, 2, SWORD_FOR_COINS.mine, Some(2))
  {
    var partner, sword := SWORD_FOR_COINS.partner, SWORD_FOR_COINS.mine;
    assert P.Left !in partner.worn && P.Takes(partner, P.Left, sword);
    P.FindsSlot(partner, 2, sword);
  }

  /** The partner ends up with both: the coins pass the test because the old stack could take twenty of them, but a move
      looks for a place of their own. */
  lemma PartnerKeepsBoth(s: State, p: PlayerId, q: PlayerId)
    requires p in s.traders && q in s.traders && p != q
    requires s.traders[p].item == Some(1) && s.traders[q].item == Some(2) && 2 in s.held && s.held[2] == q
    ensures Exchange(s, p, q, Answers(true, true, SWORD_FOR_COINS)).held == s.held[1 := q]
  {
    hide FirstMoves, SecondMoves, SWORD_FOR_COINS;
    OnlySwordMoves();
  }

  lemma OnlySwordMoves()
    ensures FirstMoves(SWORD_FOR_COINS) && !SecondMoves(SWORD_FOR_COINS)
  {
    hide P.Admits, P.Receives, P.Lighter, P.HasPlace;
    CoinsPassTheTest();
    CoinsHaveNoPlace();
    SwordHasAPlace();
    P.ReceivesAfterwards(SWORD_FOR_COINS.player, 1, SWORD_FOR_COINS.yours);
  }

  /** Two swords of players who carry nothing else. */
  const TWO_SWORDS := Deal(
    P.Item(8, SWORD, 1, 35, P.NoBox), P.Item(7, SWORD, 1, 35, P.NoBox),
    P.Belongings(map[], 100), P.Belongings(map[], 100), true)

  lemma SwordsChangeHands()
    ensures FirstMoves(TWO_SWORDS) && SecondMoves(TWO_SWORDS)
  {
    var p, later := TWO_SWORDS.player, P.Lighter(TWO_SWORDS.player, 8);
    assert P.Left !in p.worn && P.Takes(p, P.Left, TWO_SWORDS.mine) && P.Takes(p, P.Left, TWO_SWORDS.yours);
    P.FindsSlot(p, 7, TWO_SWORDS.mine);
    P.FindsSlot(p, 8, TWO_SWORDS.yours);
    assert P.Left !in later.worn && P.Takes(later, P.Left, TWO_SWORDS.yours);
    P.FindsSlot(later, 8, TWO_SWORDS.yours);
  }

  const TWO_PLAYERS := State(map[1 := NOT_TRADING, 2 := NOT_TRADING], map[], map[7 := 1, 8 := 2], {})

  const ONE_OFFERS := State(
    map[1 := Trader(Initiated, Some(2), Some(7)), 2 := Trader(Acknowledged, Some(1), None)],
    map[7 := 1], map[7 := 1, 8 := 2], {})
  const ONE_ACCEPTS := ONE_OFFERS.(traders := ONE_OFFERS.traders[1 := Trader(Accepted, Some(2), Some(7))])
  const TWO_OFFERS := State(
    ONE_ACCEPTS.traders[2 := Trader(Initiated, Some(1), Some(8))], map[7 := 1, 8 := 2], map[7 := 1, 8 := 2], {})
  const YES := Answers(true, true, TWO_SWORDS)

  lemma OneOffers()
    ensures After(TWO_PLAYERS, RequestTrade(1, 2, 7, true)) == ONE_OFFERS
  {
  }

  lemma OneAccepts()
    ensures After(ONE_OFFERS, AcceptTrade(1, YES)) == ONE_ACCEPTS
  {
    hide Exchange, Close;
  }

  lemma TwoOffers()
    ensures After(ONE_ACCEPTS, RequestTrade(2, 1, 8, true)) == TWO_OFFERS
  {
  }

  lemma BothAccept()
    ensures After(TWO_OFFERS, AcceptTrade(2, YES)).held == map[7 := 2, 8 := 1]
  {
    hide FirstMoves, SecondMoves;
    SwordsChangeHands();
    assert map[7 := 1, 8 := 2][8 := 1][7 := 2] == map[7 := 2, 8 := 1];
  }

  lemma FirstEvent(r: Record, e: Event, run: seq<Event>)
    ensures WatchRun(r, [e] + run) == WatchRun(Watch(r, e), run)
    ensures AfterRun(r.s, [e] + run) == AfterRun(After(r.s, e), run)
    ensures !e.Moved? ==> (WitnessedRun(r.s, [e] + run) <==> WitnessedRun(After(r.s, e), run))
  {
    hide Watch, After;
    assert ([e] + run)[1..] == run;
  }

  lemma NoEvents(r: Record)
    ensures WatchRun(r, []) == r && AfterRun(r.s, []) == r.s && WitnessedRun(r.s, [])
  {
  }

  /** Player 1 offers item 7 and accepts while player 2 offers nothing. Player 2 then offers item 8 and accepts: the
      items change hands, and player 1 was never asked about item 8. */
  lemma AcceptedUnseen()
    ensures Valid(TWO_PLAYERS) && WitnessedRun(TWO_PLAYERS, FOUR_EVENTS)
    ensures AfterRun(TWO_PLAYERS, FOUR_EVENTS).held == map[7 := 2, 8 := 1]
    ensures var t := WatchRun(Record(TWO_PLAYERS, map[], {}), FOUR_EVENTS);
      1 in t.seen && t.seen[1] == None && 1 in t.late
  {
    hide After, Watch, WatchRun, AfterRun, WitnessedRun, Valid;
    var e1, e2, e3, e4 := FOUR_EVENTS[0], FOUR_EVENTS[1], FOUR_EVENTS[2], FOUR_EVENTS[3];
    assert FOUR_EVENTS == [e1] + ([e2] + ([e3] + ([e4] + [])));
    var r3 := Record(TWO_OFFERS, map[1 := None], {1});
    TwoPlayersValid();
    OneOffers();
    OneAccepts();
    TwoOffers();
    FourRecords();
    FirstEvent(Record(TWO_PLAYERS, map[], {}), e1, [e2] + ([e3] + ([e4] + [])));
    FirstEvent(Record(ONE_OFFERS, map[], {}), e2, [e3] + ([e4] + []));
    FirstEvent(Record(ONE_ACCEPTS, map[1 := None], {}), e3, [e4] + []);
    FirstEvent(r3, e4, []);
    NoEvents(Watch(r3, e4));
    WatchFollows(r3, e4);
    BothAccept();
  }

  const FOUR_EVENTS :=
    [RequestTrade(1, 2, 7, true), AcceptTrade(1, YES), RequestTrade(2, 1, 8, true), AcceptTrade(2, YES)]

  lemma TwoPlayersValid()
    ensures Valid(TWO_PLAYERS)
  {
  }

  lemma FourRecords()
    ensures Watch(Record(TWO_PLAYERS, map[], {}), RequestTrade(1, 2, 7, true)) == Record(ONE_OFFERS, map[], {})
    ensures Watch(Record(ONE_OFFERS, map[], {}), AcceptTrade(1, YES)) == Record(ONE_ACCEPTS, map[1 := None], {})
    ensures Watch(Record(ONE_ACCEPTS, map[1 := None], {}), RequestTrade(2, 1, 8, true)) ==
      Record(TWO_OFFERS, map[1 := None], {1})
    ensures var r := Watch(Record(TWO_OFFERS, map[1 := None], {1}), AcceptTrade(2, YES));
      r.seen == map[1 := None, 2 := Some(7)] && r.late == {1}
  {
    hide After, TWO_SWORDS;
    OneOffers();
    OneAccepts();
    TwoOffers();
  }

  const TRINKET := P.Look(4, 0, {P.Left, P.Right}, false, P.NoWeapon, false, false, 1, true, {})

  /** An empty bag against a trinket; next to the bag lies one of five thousand trinkets, in a bag for two. */
  const SPARE_BAG := P.Item(10, BAG, 1, 16, P.Box(1, []))
  const TRINKETS := seq(5000, k requires 0 <= k < 5000 => P.Item(100 + k, TRINKET, 1, 0, P.NoBox))
  const CROWDED_BAG := P.Item(9, BAG, 1, 100, P.Box(2, [SPARE_BAG, P.Item(11, BAG, 1, 16, P.Box(5000, TRINKETS))]))

  const BAG_FOR_TRINKET := Deal(
    SPARE_BAG, P.Item(2, TRINKET, 1, 5, P.NoBox),
    P.Belongings(map[P.Backpack := CROWDED_BAG], 100), P.Belongings(map[], 100), true)

  lemma TrinketPassesTheTest()
    ensures P.Admits(BAG_FOR_TRINKET.player, 10, BAG_FOR_TRINKET.yours)
  {
    hide P.Admits, TRINKETS;
    var player, trinket := BAG_FOR_TRINKET.player, BAG_FOR_TRINKET.yours;
    var inner := P.Under(P.Worn(CROWDED_BAG), SPARE_BAG);
    assert P.HasRoom(player.free, inner, trinket);
    assert SPARE_BAG in CROWDED_BAG.box.contents;
    assert P.HasRoom(player.free, P.Worn(CROWDED_BAG), trinket);
    assert P.Searched(player, 10, trinket, P.Backpack);
    P.AdmitsPlace(player, 10, trinket);
  }

  const LEFT_BAG := CROWDED_BAG.(box := P.Box(2, [CROWDED_BAG.box.contents[1]]))

  lemma TrinketHasNoPlace()
    ensures !P.HasPlace(P.Lighter(BAG_FOR_TRINKET.player, 10), 10, BAG_FOR_TRINKET.yours)
  {
    hide P.Lighter;
    var trinket := BAG_FOR_TRINKET.yours;
    var later := P.Lighter(BAG_FOR_TRINKET.player, 10);
    BagIsLeft();
    P.NoBagsAmong(TRINKETS);
    assert P.Items(LEFT_BAG.box.contents) == 5001;
    assert !P.HasRoom(later.free, P.Under(P.Worn(LEFT_BAG), LEFT_BAG.box.contents[0]), trinket);
    assert !P.HasRoom(later.free, P.Worn(LEFT_BAG), trinket);
  }

  lemma BagIsLeft()
    ensures P.Lighter(BAG_FOR_TRINKET.player, 10).worn == map[P.Backpack := LEFT_BAG]
  {
    hide P.WornWeight;
    var full := CROWDED_BAG.box.contents[1];
    TrinketsStay();
    assert CROWDED_BAG.box.contents[1..] == [full];
    assert P.Without(full, 10) == full && P.Rest([full], 10) == [full] + P.Rest([], 10);
    assert P.Rest(CROWDED_BAG.box.contents, 10) == [] + P.Rest([full], 10) == [full];
    assert P.Without(CROWDED_BAG, 10) == LEFT_BAG;
  }

  lemma TrinketsStay()
    ensures P.Rest(TRINKETS, 10) == TRINKETS
  {
    P.NoneOut(TRINKETS, 10);
  }

  lemma SpareBagHasAPlace()
    ensures P.Admits(BAG_FOR_TRINKET.partner, 2, SPARE_BAG)
    ensures P.Receives(BAG_FOR_TRINKET.partner, 2, SPARE_BAG, Some(2))
  {
    var partner := BAG_FOR_TRINKET.partner;
    assert P.Backpack !in partner.worn && P.Takes(partner, P.Backpack, SPARE_BAG);
    P.FindsSlot(partner, 2, SPARE_BAG);
  }

  /** The partner ends up with both again: the trinket passes the test because there is room in the bag that is to
      leave, but then the place of that bag is closed. */
  lemma PartnerKeepsTrinket(s: State, p: PlayerId, q: PlayerId)
    requires p in s.traders && q in s.traders && p != q
    requires s.traders[p].item == Some(10) && s.traders[q].item == Some(2) && 2 in s.held && s.held[2] == q
    ensures Exchange(s, p, q, Answers(true, true, BAG_FOR_TRINKET)).held == s.held[10 := q]
  {
    hide FirstMoves, SecondMoves, BAG_FOR_TRINKET;
    OnlyBagMoves();
  }

  lemma OnlyBagMoves()
    ensures FirstMoves(BAG_FOR_TRINKET) && !SecondMoves(BAG_FOR_TRINKET)
  {
    hide P.Admits, P.Receives, P.Lighter, P.HasPlace, CROWDED_BAG;
    TrinketPassesTheTest();
    TrinketHasNoPlace();
    SpareBagHasAPlace();
    P.ReceivesAfterwards(BAG_FOR_TRINKET.player, 10, BAG_FOR_TRINKET.yours);
  }

  // --------------------------------------------------------------------
  // The trade desk
  // --------------------------------------------------------------------

  lemma SwapKeepsTraders(s: State, traders: map<PlayerId, Trader>, p: PlayerId, q: PlayerId, mine: Option<ItemId>,
                         yours: Option<ItemId>, a: Answers)
    ensures Swap(s.(traders := traders), p, q, mine, yours, a) == Swap(s, p, q, mine, yours, a).(traders := traders)
    ensures Swap(s, p, q, mine, yours, a).traders == s.traders
  {
  }

  lemma SetAgain(m: map<PlayerId, Trader>, n: map<PlayerId, Trader>, p: PlayerId, q: PlayerId)
    requires p in m && q in m && p in n && q in n && n == m[p := n[p]][q := n[q]]
    ensures n[p := NOT_TRADING][q := NOT_TRADING] == m[p := NOT_TRADING][q := NOT_TRADING]
  {
  }

  class TradeDesk {
    var traders: map<PlayerId, Trader>
    var tradeItems: map<ItemId, PlayerId>
    var held: map<ItemId, PlayerId>
    var inside: set<(ItemId, ItemId)>

    ghost function Now(): State
      reads this
    {
      State(traders, tradeItems, held, inside)
    }

    /** A server that has just started, with its items where they are. */
    constructor (held: map<ItemId, PlayerId>, inside: set<(ItemId, ItemId)>)
      ensures Now() == State(map[], map[], held, inside) && Valid(Now())
    {
      traders, tradeItems := map[], map[];
      this.held, this.inside := held, inside;
    }

    /** The loop over the registry in playerRequestTrade. */
    method IsEntangled(item: ItemId) returns (found: bool)
      ensures found <==> Entangled(Now(), item)
    {
      var rest := tradeItems.Keys;
      found := false;
      while rest != {} && !found
        invariant rest <= tradeItems.Keys
        invariant found ==> Entangled(Now(), item)
        invariant !found ==> forall i <- tradeItems :: i in rest || !Clash(item, i, inside)
        decreases |rest|
      {
        var i :| i in rest;
        rest := rest - {i};
        found := Clash(item, i, inside);
      }
    }

    method RequestTrade(p: PlayerId, q: PlayerId, item: ItemId, admitted: bool)
      modifies this`traders, this`tradeItems
      ensures Now() == Request(old(Now()), p, q, item, admitted)
    {
      if p !in traders || q !in traders || p == q || !admitted {
        return;
      }
      var entangled := IsEntangled(item);
      if !entangled {
        var _ := StartTrade(p, q, item);
      }
    }

    method StartTrade(p: PlayerId, q: PlayerId, item: ItemId) returns (started: bool)
      requires p in traders && q in traders && p != q
      modifies this`traders, this`tradeItems
      ensures Now() == Start(old(Now()), p, q, item)
      ensures started <==> MayStart(old(Now()), p, q)
    {
      var player, tradePartner := traders[p], traders[q];
      if player.stage != Idle && !(player.stage == Acknowledged && player.partner == Some(q)) {
        return false;
      } else if tradePartner.stage != Idle && tradePartner.partner != Some(p) {
        return false;
      }
      traders := traders[p := Trader(Initiated, Some(q), Some(item))];
      tradeItems := tradeItems[item := p];
      if tradePartner.stage == Idle {
        traders := traders[q := tradePartner.(stage := Acknowledged, partner := Some(p))];
      }
      started := true;
    }

    method ReleaseSide(p: PlayerId)
      requires p in traders
      modifies this`traders, this`tradeItems
      ensures Now() == Release(old(Now()), p)
    {
      var item := traders[p].item;
      if item.Some? {
        tradeItems := tradeItems - {item.value};
      }
      traders := traders[p := NOT_TRADING];
    }

    method CloseTrade(p: PlayerId)
      requires p in traders
      modifies this`traders, this`tradeItems
      ensures Now() == Close(old(Now()), p)
    {
      var tradePartner := traders[p].partner;
      if (tradePartner.Some? && tradePartner.value in traders && traders[tradePartner.value].stage == Transferring) ||
        traders[p].stage == Transferring
      {
        return;
      }
      ReleaseSide(p);
      if tradePartner.Some? && tradePartner.value in traders {
        ReleaseSide(tradePartner.value);
      }
    }

    /** The move notifications ask for the trade to be closed while it is being carried out: nothing happens. */
    method Notify(p: PlayerId)
      requires p in traders && InTransfer(Now(), p)
      modifies this`traders, this`tradeItems
      ensures Now() == old(Now())
    {
      CloseTrade(p);
    }

    method AcceptTrade(p: PlayerId, a: Answers)
      requires Valid(Now())
      modifies this`traders, this`tradeItems, this`held
      ensures Now() == Accept(old(Now()), p, a) && Valid(Now())
    {
      AcceptValid(Now(), p, a);
      if p !in traders || (traders[p].stage != Acknowledged && traders[p].stage != Initiated) {
        return;
      }
      assert Sound(Now(), p);
      if traders[p].partner.None? || !a.inReach {
        return;
      }
      var q := traders[p].partner.value;
      traders := traders[p := traders[p].(stage := Accepted)];
      if traders[q].stage != Accepted {
        return;
      }
      if !a.allowed {
        CloseTrade(p);
        return;
      }
      CarryOut(p, q, a);
    }

    method CarryOut(p: PlayerId, q: PlayerId, a: Answers)
      requires p in traders && q in traders && p != q && traders[p].partner == Some(q) && traders[q].partner == Some(p)
      modifies this`traders, this`tradeItems, this`held
      ensures Now() == Exchange(old(Now()), p, q, a)
    {
      var tradeItem1, tradeItem2 := traders[p].item, traders[q].item;
      ghost var s := Now();
      hide Swap;
      traders := traders[p := traders[p].(stage := Transferring)];
      traders := traders[q := traders[q].(stage := Transferring)];
      if tradeItem1.Some? {
        tradeItems := tradeItems - {tradeItem1.value};
      }
      if tradeItem2.Some? {
        tradeItems := tradeItems - {tradeItem2.value};
      }
      SwapKeepsTraders(Unregister(Unregister(s, tradeItem1), tradeItem2), traders, p, q, tradeItem1, tradeItem2, a);
      SetAgain(s.traders, traders, p, q);
      SwapItems(p, q, tradeItem1, tradeItem2, a);
      traders := traders[p := NOT_TRADING];
      traders := traders[q := NOT_TRADING];
    }

    method SwapItems(p: PlayerId, q: PlayerId, tradeItem1: Option<ItemId>, tradeItem2: Option<ItemId>, a: Answers)
      requires p in traders && q in traders && InTransfer(Now(), p) && InTransfer(Now(), q)
      modifies this`traders, this`tradeItems, this`held
      ensures Now() == Swap(old(Now()), p, q, tradeItem1, tradeItem2, a)
    {
      if tradeItem1.None? || tradeItem2.None? {
        return;
      }
      var d := a.deal;
      var fits1 := P.TestAddItem(d.partner, d.yours.thing, d.mine);
      var fits2 := P.TestAddItem(d.player, d.mine.thing, d.yours);
      if !fits1 || !fits2 || !d.removable {
        return;
      }
      var moved1 := P.TestMoveItem(d.partner, d.yours.thing, d.mine, Some(d.yours.thing));
      if moved1 {
        held := held[tradeItem1.value := q];
        Notify(p);
        Notify(q);
        var moved2 := P.TestMoveItem(P.Lighter(d.player, d.mine.thing), d.mine.thing, d.yours, None);
        if moved2 {
          held := held[tradeItem2.value := p];
          Notify(p);
          Notify(q);
        }
      }
    }

    method CheckTradeState(p: PlayerId, x: ItemId)
      modifies this`traders, this`tradeItems
      ensures Now() == Check(old(Now()), p, x)
    {
      if p in traders && traders[p].item.Some? && traders[p].stage != Transferring &&
        Holds(inside, traders[p].item.value, x)
      {
        CloseTrade(p);
      }
    }

    method OnRemoveItem(p: PlayerId, x: ItemId, from: Option<ItemId>)
      modifies this`traders, this`tradeItems
      ensures Now() == Miss(old(Now()), p, x, from)
    {
      CheckTradeState(p, x);
      if p in traders && traders[p].item.Some? && traders[p].stage != Transferring {
        var i := traders[p].item.value;
        var bereft := if from.None? then (x, i) in inside else Deeper(inside, from.value, i);
        if bereft {
          CloseTrade(p);
        }
      }
    }

    /** A move with the notifications around it. */
    method MoveItem(x: ItemId, from: Option<ItemId>, up: set<ItemId>, holder: Option<PlayerId>, missed: seq<PlayerId>,
                    seen: seq<PlayerId>)
      requires Valid(Now())
      requires forall i <- tradeItems :: i in up ==> tradeItems[i] in seen
      modifies this
      ensures Now() == Move(old(Now()), x, from, up, holder, missed, seen) && Valid(Now())
    {
      hide Books, Put, Pass, Miss, Check, Apart;
      MoveValid(Now(), x, from, up, holder, missed, seen);
      ghost var before := Now();
      for k := 0 to |missed|
        invariant MissAll(Now(), missed[k..], x, from) == MissAll(before, missed, x, from)
        invariant inside == old(inside) && held == old(held)
      {
        assert missed[k..][0] == missed[k] && missed[k..][1..] == missed[k + 1..];
        OnRemoveItem(missed[k], x, from);
      }
      held := Pass(held, Carried(inside, x), holder);
      inside := Put(inside, x, up);
      ghost var moved := Now();
      for k := 0 to |seen|
        invariant CheckAll(Now(), seen[k..], x) == CheckAll(moved, seen, x)
        invariant inside == moved.inside && held == moved.held
      {
        assert seen[k..][0] == seen[k] && seen[k..][1..] == seen[k + 1..];
        CheckTradeState(seen[k], x);
      }
    }
  }
}
