// Looting an item into nested containers, and the count of what is left
// (src/game/game.cpp:2706-2797).
module Loot {
  import opened Arithmetic
  import opened Options
  import opened Stacks

  /** Something in a container: an item, or a container with things inside. */
  datatype Thing = Plain | Sub(id: nat, inside: seq<Thing>)

  /** A container on its own. */
  datatype Box = Box(id: nat, inside: seq<Thing>)

  predicate Entered(over: seq<seq<Thing>>) {
    forall k :: 0 <= k < |over| ==> over[k] != []
  }

  /** ContainerIterator: what is left of the container it is in, then the containers it will enter. */
  type Over = over: seq<seq<Thing>> | Entered(over)

  // --------------------------------------------------------------------
  // The iterator (src/items/containers/container.cpp:912-964)
  // --------------------------------------------------------------------

  function Iterator(inside: seq<Thing>): (over: Over)
  {
    if inside == [] then [] else [inside]
  }

  /** The containers still to enter, with the one the iterator stands on if it has contents. */
  function Queued(over: Over): Over
    requires over != []
  {
    over[1..] + if over[0][0].Sub? && over[0][0].inside != [] then [over[0][0].inside] else []
  }

  function Front(left: seq<Thing>, queued: Over): Over {
    if left == [] then queued else [left] + queued
  }

  /** advance */
  function Advance(over: Over): (next: Over)
    requires over != []
  {
    Front(over[0][1..], Queued(over))
  }

  function Size(things: seq<Thing>): nat {
    if things == [] then 0 else
    (match things[0]
     case Plain => 1
     case Sub(_, inside) => 1 + Size(inside)) + Size(things[1..])
  }

  function SizeAll(over: seq<seq<Thing>>): nat {
    if over == [] then 0 else Size(over[0]) + SizeAll(over[1..])
  }

  lemma {:induction false} SizeQueued(over: seq<seq<Thing>>, more: seq<Thing>)
    ensures SizeAll(over + [more]) == SizeAll(over) + Size(more)
  {
    if over == [] {
      assert SizeAll([more]) == Size(more) + SizeAll([]);
    } else {
      SizeQueued(over[1..], more);
      assert (over + [more])[1..] == over[1..] + [more];
    }
  }

  lemma QueuedShrinks(over: Over)
    requires over != []
    ensures SizeAll(Queued(over)) + Size(over[0][1..]) < SizeAll(over)
  {
    var rest := over[1..];
    assert rest + [] == rest;
    if over[0][0].Sub? {
      SizeQueued(rest, over[0][0].inside);
    }
  }

  lemma AdvanceShrinks(over: Over)
    requires over != []
    ensures SizeAll(Advance(over)) < SizeAll(over)
  {
    QueuedShrinks(over);
  }

  /** The next container of the walk, and the iterator behind it. */
  datatype Next = End | At(id: nat, inside: seq<Thing>, over: Over)

  function FindNext(over: Over): (r: Next)
    ensures r.At? ==> SizeAll(r.over) < SizeAll(over)
    decreases SizeAll(over)
  {
    if over == [] then End else
    AdvanceShrinks(over);
    match over[0][0]
    case Sub(id, inside) => At(id, inside, Advance(over))
    case Plain => FindNext(Advance(over))
  }

  /** All containers of the walk, breadth first. */
  function Walk(over: Over): seq<nat>
    decreases SizeAll(over)
  {
    match FindNext(over)
    case End => []
    case At(id, _, next) => [id] + Walk(next)
  }

  /** The containers in a forest, at any depth. */
  function Subs(things: seq<Thing>): multiset<nat> {
    if things == [] then multiset{} else
    (match things[0]
     case Plain => multiset{}
     case Sub(id, inside) => multiset{id} + Subs(inside)) + Subs(things[1..])
  }

  function SubsAll(over: seq<seq<Thing>>): multiset<nat> {
    if over == [] then multiset{} else Subs(over[0]) + SubsAll(over[1..])
  }

  lemma {:induction false} SubsQueued(over: seq<seq<Thing>>, more: seq<Thing>)
    ensures SubsAll(over + [more]) == SubsAll(over) + Subs(more)
  {
    hide Subs;
    if over == [] {
      assert SubsAll([more]) == Subs(more) + SubsAll([]);
    } else {
      SubsQueued(over[1..], more);
      assert (over + [more])[1..] == over[1..] + [more];
    }
  }

  function Own(thing: Thing): multiset<nat> {
    if thing.Sub? then multiset{thing.id} else multiset{}
  }

  lemma QueuedSubs(over: Over)
    requires over != []
    ensures Subs(over[0]) + SubsAll(over[1..]) == Own(over[0][0]) + Subs(over[0][1..]) + SubsAll(Queued(over))
  {
    var rest := over[1..];
    assert rest + [] == rest;
    if over[0][0].Sub? {
      SubsQueued(rest, over[0][0].inside);
    }
  }

  lemma AdvanceSubs(over: Over)
    requires over != []
    ensures SubsAll(over) == Own(over[0][0]) + SubsAll(Advance(over))
  {
    QueuedSubs(over);
    hide Own, Subs, Queued, Front;
    assert SubsAll(over) == Subs(over[0]) + SubsAll(over[1..]);
  }

  lemma {:induction false} FindSubs(over: Over)
    ensures match FindNext(over)
      case End => SubsAll(over) == multiset{}
      case At(id, _, next) => SubsAll(over) == multiset{id} + SubsAll(next)
    decreases SizeAll(over)
  {
    if over != [] {
      AdvanceShrinks(over);
      AdvanceSubs(over);
      if over[0][0].Plain? {
        FindSubs(Advance(over));
      }
    }
  }

  /** The walk meets every container below, at any depth, exactly once. */
  lemma {:induction false} WalkMeetsAll(over: Over)
    ensures multiset(Walk(over)) == SubsAll(over)
    decreases SizeAll(over)
  {
    FindSubs(over);
    match FindNext(over)
    case End =>
    case At(id, _, next) => WalkMeetsAll(next);
  }

  // --------------------------------------------------------------------
  // The loop
  // --------------------------------------------------------------------

  /** Where the loop stands: the container to try now, the iterator, the contents of the last container that
      the iterator found, and the main backpack while the fallback is still to be had. */
  datatype Tour = Tour(here: nat, over: Over, last: Option<seq<Thing>>, fallback: Option<Box>)

  /** What the last item of the last container holds, as findNextAvailableContainer looks it up. */
  function LastItem(last: Option<seq<Thing>>): Thing {
    if last.None? || last.value == [] then Plain else last.value[|last.value| - 1]
  }

  function Forget(last: Option<seq<Thing>>): Option<seq<Thing>> {
    if last.Some? && last.value != [] then None else last
  }

  /** findNextAvailableContainer and handleFallbackLogic: the next container to try. */
  function Following(t: Tour): (r: Option<Tour>)
  {
    match FindNext(t.over)
    case At(id, inside, next) => Some(Tour(id, next, Some(inside), t.fallback))
    case End =>
      if LastItem(t.last).Sub? then Some(Tour(LastItem(t.last).id, [], Forget(t.last), t.fallback))
      else if t.fallback.Some? then
        Some(Tour(t.fallback.value.id, Iterator(t.fallback.value.inside), Forget(t.last), None))
      else None
  }

  datatype Ret = NoError | NotEnoughRoom | Other

  /** What one attempt answers: how many pieces would go over, and how many of them join a stack there. */
  datatype Outcome = Outcome(ret: Ret, moved: nat, merged: nat)

  const U32: nat := 0x1_0000_0000

  function Moved(o: Outcome, count: nat): nat {
    Min(o.moved, count)
  }

  /** The count of the item that internalMoveItem hands back. */
  function Reported(o: Outcome, count: nat): nat {
    var m := Moved(o, count);
    if m == 0 then 0 else Handed(count, m, Min(o.merged, m))
  }

  function Remainder(remainder: nat, o: Outcome, count: nat): nat {
    (remainder - Reported(o, count)) % U32
  }

  datatype Stop = Answered | Exhausted | NothingLeft

  datatype Result = Result(ret: Ret, stop: Stop, tried: seq<nat>, left: nat)

  function NextOutcome(outcomes: seq<Outcome>): Outcome {
    if outcomes == [] then Outcome(NotEnoughRoom, 0, 0) else outcomes[0]
  }

  function LaterOutcomes(outcomes: seq<Outcome>): seq<Outcome> {
    if outcomes == [] then [] else outcomes[1..]
  }

  ghost predicate Later(u: Tour, t: Tour) {
    if t.fallback.Some? && u.fallback.None? then true
    else t.fallback == u.fallback &&
         (SizeAll(u.over) < SizeAll(t.over) || (SizeAll(u.over) == SizeAll(t.over) && t.last.Some? && u.last.None?))
  }

  lemma FollowingIsLater(t: Tour)
    requires Following(t).Some?
    ensures Later(Following(t).value, t)
  {
  }

  /** The loop of processLootItems. */
  function Run(t: Tour, outcomes: seq<Outcome>, count: nat, remainder: nat): (r: Result)
    ensures r.left <= count
    decreases t.fallback.Some?, SizeAll(t.over), t.last.Some?
  {
    var o := NextOutcome(outcomes);
    var left := count - Moved(o, count);
    if o.ret != NotEnoughRoom then Result(o.ret, Answered, [t.here], left)
    else if Following(t).None? then Result(o.ret, Exhausted, [t.here], left)
    else if Remainder(remainder, o, count) == 0 then Result(o.ret, NothingLeft, [t.here], left)
    else
      FollowingIsLater(t);
      var r := Run(Following(t).value, LaterOutcomes(outcomes), left, Remainder(remainder, o, count));
      r.(tried := [t.here] + r.tried)
  }

  /** The containers tried so far, before those of the rest of the loop. */
  ghost function Before(tried: seq<nat>, r: Result): Result {
    r.(tried := tried + r.tried)
  }

  lemma RunStops(t: Tour, outcomes: seq<Outcome>, count: nat, remainder: nat)
    ensures var o := NextOutcome(outcomes);
      var left := count - Moved(o, count);
      var r := Run(t, outcomes, count, remainder);
      (o.ret != NotEnoughRoom ==> r == Result(o.ret, Answered, [t.here], left)) &&
      (o.ret == NotEnoughRoom && Following(t).None? ==> r == Result(o.ret, Exhausted, [t.here], left)) &&
      (o.ret == NotEnoughRoom && Following(t).Some? && Remainder(remainder, o, count) == 0 ==>
        r == Result(o.ret, NothingLeft, [t.here], left))
  {
  }

  lemma RunGoesOn(tried: seq<nat>, t: Tour, outcomes: seq<Outcome>, count: nat, remainder: nat)
    ensures var o := NextOutcome(outcomes);
      o.ret == NotEnoughRoom && Following(t).Some? && Remainder(remainder, o, count) != 0 ==>
        Before(tried, Run(t, outcomes, count, remainder)) ==
          Before(tried + [t.here], Run(Following(t).value, LaterOutcomes(outcomes), count - Moved(o, count),
                                    Remainder(remainder, o, count)))
  {
    hide Following, Remainder;
    if Following(t).Some? {
      var r := Run(Following(t).value, LaterOutcomes(outcomes), count - Moved(NextOutcome(outcomes), count),
                   Remainder(remainder, NextOutcome(outcomes), count));
      assert tried + ([t.here] + r.tried) == tried + [t.here] + r.tried;
    }
  }

  // --------------------------------------------------------------------
  // Which containers are tried
  // --------------------------------------------------------------------

  /** The contents of the container found last stand at the end of the queue. */
  predicate Sound(t: Tour) {
    t.last.Some? && t.last.value != [] ==> t.over != [] && t.over[|t.over| - 1] == t.last.value
  }

  lemma {:induction false} FoundIsQueued(over: Over)
    ensures match FindNext(over)
      case End => true
      case At(_, inside, next) => inside != [] ==> next != [] && next[|next| - 1] == inside
    decreases SizeAll(over)
  {
    if over != [] && over[0][0].Plain? {
      AdvanceShrinks(over);
      FoundIsQueued(Advance(over));
    }
  }

  lemma {:induction false} NoSubs(things: seq<Thing>, i: nat)
    requires Subs(things) == multiset{} && i < |things|
    ensures things[i].Plain?
  {
    if i > 0 {
      NoSubs(things[1..], i - 1);
    }
  }

  lemma {:induction false} NoSubsAll(over: Over, k: nat)
    requires SubsAll(over) == multiset{} && k < |over|
    ensures Subs(over[k]) == multiset{}
  {
    if k > 0 {
      NoSubsAll(over[1..], k - 1);
    }
  }

  /** The repair for an empty last container never finds one: whatever it could find has been walked through. */
  lemma RepairFindsNothing(t: Tour)
    requires Sound(t) && FindNext(t.over).End?
    ensures LastItem(t.last).Plain?
  {
    if t.last.Some? && t.last.value != [] {
      FindSubs(t.over);
      NoSubsAll(t.over, |t.over| - 1);
      NoSubs(t.last.value, |t.last.value| - 1);
    }
  }

  lemma FollowingSound(t: Tour)
    requires Sound(t)
    ensures Following(t).Some? ==> Sound(Following(t).value)
  {
    FoundIsQueued(t.over);
    if FindNext(t.over).End? {
      RepairFindsNothing(t);
    }
  }

  /** The container, all below it breadth first, and then, once, the backpack and all below that. */
  function Path(t: Tour): seq<nat>
  {
    [t.here] + Walk(t.over) +
    if t.fallback.None? then [] else [t.fallback.value.id] + Walk(Iterator(t.fallback.value.inside))
  }

  lemma PathNext(t: Tour)
    requires Sound(t)
    ensures Path(t) == [t.here] + if Following(t).None? then [] else Path(Following(t).value)
  {
    var rest := if t.fallback.None? then [] else [t.fallback.value.id] + Walk(Iterator(t.fallback.value.inside));
    if FindNext(t.over).End? {
      RepairFindsNothing(t);
      assert [t.here] + [] + rest == [t.here] + rest;
      if t.fallback.Some? {
        assert rest + [] == rest;
      }
    } else {
      var n := FindNext(t.over);
      assert [t.here] + ([n.id] + Walk(n.over)) + rest == [t.here] + ([n.id] + Walk(n.over) + rest);
    }
  }

  /** The containers are tried in the order of the path, and all of them unless an attempt gave another answer
      or the count of what is left came to 0. */
  lemma {:induction false} TriedInOrder(t: Tour, outcomes: seq<Outcome>, count: nat, remainder: nat)
    requires Sound(t)
    ensures var r := Run(t, outcomes, count, remainder);
      r.tried <= Path(t) && (r.stop == Exhausted ==> r.tried == Path(t) && r.ret == NotEnoughRoom)
    decreases t.fallback.Some?, SizeAll(t.over), t.last.Some?
  {
    hide Path, Run, Following, Remainder, Moved, Before;
    var o := NextOutcome(outcomes);
    PathNext(t);
    FollowingSound(t);
    RunStops(t, outcomes, count, remainder);
    if o.ret == NotEnoughRoom && Following(t).Some? && Remainder(remainder, o, count) != 0 {
      FollowingIsLater(t);
      var left := count - Moved(o, count);
      RunNext(t, outcomes, count, remainder);
      TriedInOrder(Following(t).value, LaterOutcomes(outcomes), left, Remainder(remainder, o, count));
    }
  }

  lemma RunNext(t: Tour, outcomes: seq<Outcome>, count: nat, remainder: nat)
    ensures var o := NextOutcome(outcomes);
      o.ret == NotEnoughRoom && Following(t).Some? && Remainder(remainder, o, count) != 0 ==>
        var next := Run(Following(t).value, LaterOutcomes(outcomes), count - Moved(o, count),
                        Remainder(remainder, o, count));
        Run(t, outcomes, count, remainder) == next.(tried := [t.here] + next.tried)
  {
    hide Following, Remainder, Moved;
  }

  // --------------------------------------------------------------------
  // What is left
  // --------------------------------------------------------------------

  /** The attempt moves nothing, joins none of the pieces to a stack, or joins all or just half of the item to
      one. */
  predicate Countable(o: Outcome, count: nat) {
    var m := Moved(o, count);
    m == 0 || o.merged == 0 || (o.merged >= m && (m == count || count == 2 * m))
  }

  /** The remainder follows the item for an attempt exactly then. */
  lemma RemainderFollows(o: Outcome, count: nat)
    requires count < U32
    ensures Remainder(count, o, count) == count - Moved(o, count) <==> Countable(o, count)
  {
  }

  /** The loop has a next attempt. */
  predicate GoesOn(t: Tour, o: Outcome, count: nat, remainder: nat)
  {
    o.ret == NotEnoughRoom && Following(t).Some? && Remainder(remainder, o, count) != 0
  }

  /** Before and after every attempt of the loop the counter is what is left. */
  predicate CounterRight(t: Tour, outcomes: seq<Outcome>, count: nat, remainder: nat)
    decreases t.fallback.Some?, SizeAll(t.over), t.last.Some?
  {
    var o := NextOutcome(outcomes);
    var left := count - Moved(o, count);
    if remainder != count || Remainder(remainder, o, count) != left then false
    else if !GoesOn(t, o, count, remainder) then true
    else
      FollowingIsLater(t);
      CounterRight(Following(t).value, LaterOutcomes(outcomes), left, Remainder(remainder, o, count))
  }

  /** Every attempt of a loop whose counter is right so far can be counted. */
  predicate AllCountable(t: Tour, outcomes: seq<Outcome>, count: nat)
    decreases t.fallback.Some?, SizeAll(t.over), t.last.Some?
  {
    var o := NextOutcome(outcomes);
    var left := count - Moved(o, count);
    if !Countable(o, count) then false
    else if o.ret != NotEnoughRoom || Following(t).None? || left == 0 then true
    else
      FollowingIsLater(t);
      AllCountable(Following(t).value, LaterOutcomes(outcomes), left)
  }

  /** Over a whole loop the counter is what is left at every step exactly when each attempt can be counted. */
  lemma {:induction false} CounterFollows(t: Tour, outcomes: seq<Outcome>, count: nat)
    requires count < U32
    ensures CounterRight(t, outcomes, count, count) <==> AllCountable(t, outcomes, count)
    decreases t.fallback.Some?, SizeAll(t.over), t.last.Some?
  {
    hide Countable, Moved, Remainder, Following, NextOutcome, LaterOutcomes, SizeAll;
    var o := NextOutcome(outcomes);
    RemainderFollows(o, count);
    if Countable(o, count) && GoesOn(t, o, count, count) {
      FollowingIsLater(t);
      CounterFollows(Following(t).value, LaterOutcomes(outcomes), count - Moved(o, count));
    }
  }

  /** With a counter that is right, a loop that counts down to 0 has moved everything. */
  lemma {:induction false} NothingLeftIsNothing(t: Tour, outcomes: seq<Outcome>, count: nat)
    requires count < U32 && AllCountable(t, outcomes, count)
    ensures var r := Run(t, outcomes, count, count); r.stop == NothingLeft ==> r.left == 0
    decreases t.fallback.Some?, SizeAll(t.over), t.last.Some?
  {
    var o := NextOutcome(outcomes);
    RemainderFollows(o, count);
    RunStops(t, outcomes, count, count);
    RunGoesOn([], t, outcomes, count, count);
    hide Following, Countable, Run, Remainder, Moved;
    if GoesOn(t, o, count, count) {
      FollowingIsLater(t);
      NothingLeftIsNothing(Following(t).value, LaterOutcomes(outcomes), count - Moved(o, count));
    }
  }

  // --------------------------------------------------------------------
  // What the containers answer
  // --------------------------------------------------------------------

  /** What a container offers the item: free places, and the room of each stack the item can join, in order. A container
      may also refuse for other reasons. */
  datatype Room = Room(free: nat, joins: seq<nat>, barred: bool)

  /** One attempt with an item of no more than a stack: a free place takes it all, with the first stack filled up
      before; without one, that stack takes what it can. */
  function Answer(room: Room, count: nat): Outcome {
    var first := if room.joins == [] then 0 else room.joins[0];
    if room.barred then Outcome(Other, 0, 0)
    else if room.free > 0 then Outcome(NoError, count, Min(first, count))
    else if room.joins == [] then Outcome(NotEnoughRoom, 0, 0)
    else Outcome(if first < count then NotEnoughRoom else NoError, first, first)
  }

  function RoomOf(rooms: map<nat, Room>, id: nat): Room {
    if id in rooms then rooms[id] else Room(0, [], false)
  }

  /** After an attempt that left something over, the first stack is full. */
  function Filled(rooms: map<nat, Room>, id: nat): map<nat, Room> {
    var room := RoomOf(rooms, id);
    if room.joins == [] then rooms else rooms[id := room.(joins := room.joins[1..])]
  }

  /** An attempt with some pieces succeeds exactly when all of them go over, and none go where the item is barred. */
  lemma AllOrNotEnough(room: Room, count: nat)
    requires count > 0
    ensures var o := Answer(room, count);
      (o.ret == NoError <==> Moved(o, count) == count) &&
      (o.ret == NotEnoughRoom ==> o.merged == Moved(o, count)) &&
      (o.ret == Other <==> room.barred)
  {
  }

  function RoomInStacks(joins: seq<nat>): nat {
    if joins == [] then 0 else joins[0] + RoomInStacks(joins[1..])
  }

  /** What goes over to the stacks of a container takes up their room there, and nowhere else. */
  lemma StacksFillUp(rooms: map<nat, Room>, id: nat, count: nat, other: nat)
    requires count > 0 && Answer(RoomOf(rooms, id), count).ret == NotEnoughRoom
    ensures var o, was, now := Answer(RoomOf(rooms, id), count), RoomOf(rooms, id), RoomOf(Filled(rooms, id), id);
      RoomInStacks(now.joins) + Moved(o, count) == RoomInStacks(was.joins) && now == was.(joins := now.joins)
    ensures other != id ==> RoomOf(Filled(rooms, id), other) == RoomOf(rooms, other)
  {
  }

  /** The outcomes of a loop over these containers. */
  function Outcomes(t: Tour, rooms: map<nat, Room>, count: nat, remainder: nat): seq<Outcome>
    decreases t.fallback.Some?, SizeAll(t.over), t.last.Some?
  {
    var o := Answer(RoomOf(rooms, t.here), count);
    if !GoesOn(t, o, count, remainder) then [o]
    else
      FollowingIsLater(t);
      [o] + Outcomes(Following(t).value, Filled(rooms, t.here), count - Moved(o, count), Remainder(remainder, o, count))
  }

  /** The first stack takes nothing, all of the item, or just half of it. */
  predicate Even(room: Room, count: nat) {
    room.barred || room.joins == [] || room.joins[0] == 0 || room.joins[0] >= count ||
    (room.free == 0 && count == 2 * room.joins[0])
  }

  lemma EvenIsCountable(room: Room, count: nat)
    ensures Countable(Answer(room, count), count) <==> Even(room, count)
  {
  }

  predicate AllEven(t: Tour, rooms: map<nat, Room>, count: nat)
    decreases t.fallback.Some?, SizeAll(t.over), t.last.Some?
  {
    var o := Answer(RoomOf(rooms, t.here), count);
    var left := count - Moved(o, count);
    if !Even(RoomOf(rooms, t.here), count) then false
    else if o.ret != NotEnoughRoom || Following(t).None? || left == 0 then true
    else
      FollowingIsLater(t);
      AllEven(Following(t).value, Filled(rooms, t.here), left)
  }

  lemma {:induction false} EvenCounts(t: Tour, rooms: map<nat, Room>, count: nat)
    requires count < U32
    ensures AllCountable(t, Outcomes(t, rooms, count, count), count) <==> AllEven(t, rooms, count)
    decreases t.fallback.Some?, SizeAll(t.over), t.last.Some?
  {
    hide Countable, Moved, Remainder, Following, Answer, Filled, Even, Outcomes;
    hide NextOutcome, LaterOutcomes, SizeAll;
    var o := Answer(RoomOf(rooms, t.here), count);
    EvenIsCountable(RoomOf(rooms, t.here), count);
    RemainderFollows(o, count);
    OutcomesNext(t, rooms, count, count);
    if Countable(o, count) && GoesOn(t, o, count, count) {
      FollowingIsLater(t);
      EvenCounts(Following(t).value, Filled(rooms, t.here), count - Moved(o, count));
    }
  }

  lemma OutcomesNext(t: Tour, rooms: map<nat, Room>, count: nat, remainder: nat)
    ensures var o := Answer(RoomOf(rooms, t.here), count);
      var outcomes := Outcomes(t, rooms, count, remainder);
      NextOutcome(outcomes) == o &&
      (GoesOn(t, o, count, remainder) ==>
        LaterOutcomes(outcomes) ==
          Outcomes(Following(t).value, Filled(rooms, t.here), count - Moved(o, count), Remainder(remainder, o, count)))
  {
    hide Moved, Remainder, Following, Answer, Filled, SizeAll;
  }

  /** So the containers decide: over the whole loop the counter is what is left exactly when the first stack of each
      container, as it is by then, takes nothing, all, or just half. */
  lemma ContainersDecide(t: Tour, rooms: map<nat, Room>, count: nat)
    requires count < U32
    ensures CounterRight(t, Outcomes(t, rooms, count, count), count, count) <==> AllEven(t, rooms, count)
  {
    CounterFollows(t, Outcomes(t, rooms, count, count), count);
    EvenCounts(t, rooms, count);
  }

  predicate NoMerge(outcomes: seq<Outcome>) {
    forall k :: 0 <= k < |outcomes| ==> outcomes[k].merged == 0
  }

  /** As long as no piece joins a stack, the counter is right. */
  lemma {:induction false} NoMergeIsCountable(t: Tour, outcomes: seq<Outcome>, count: nat)
    requires NoMerge(outcomes)
    ensures AllCountable(t, outcomes, count)
    decreases t.fallback.Some?, SizeAll(t.over), t.last.Some?
  {
    var o := NextOutcome(outcomes);
    NextPlain(outcomes);
    if o.ret == NotEnoughRoom && Following(t).Some? && count - Moved(o, count) != 0 {
      FollowingIsLater(t);
      NoMergeIsCountable(Following(t).value, LaterOutcomes(outcomes), count - Moved(o, count));
    }
  }

  lemma NextPlain(outcomes: seq<Outcome>)
    requires NoMerge(outcomes)
    ensures NextOutcome(outcomes).merged == 0 && NoMerge(LaterOutcomes(outcomes))
  {
  }

  /** With merges the loop may stop too early: of 100 pieces 40 and then 20 join stacks, and the loop counts 0
      where 40 are left, without a look at the third container. */
  lemma StopsTooEarly()
    ensures Sound(THREE_BOXES) && Path(THREE_BOXES) == [1, 2, 3] && NEARLY_FULL[3].free > 0
    ensures Run(THREE_BOXES, Outcomes(THREE_BOXES, NEARLY_FULL, 100, 100), 100, 100) ==
      Result(NotEnoughRoom, NothingLeft, [1, 2], 40)
  {
    var t, second := THREE_BOXES, Tour(2, [[Sub(3, [])]], Some([]), None);
    ThreeBoxes(t, second);
    var o, p := Outcome(NotEnoughRoom, 40, 40), Outcome(NotEnoughRoom, 20, 20);
    hide *;
    TwoMerges(o, p);
    RunStops(second, [p], 60, 40);
    RunGoesOn([], t, [o, p], 100, 100);
    AnswersOfTwo(t, second);
  }

  const THREE_BOXES := Tour(1, [[Sub(2, []), Sub(3, [])]], None, None)
  const NEARLY_FULL := map[1 := Room(0, [40], false), 2 := Room(0, [20], false), 3 := Room(1, [], false)]

  lemma AnswersOfTwo(t: Tour, second: Tour)
    requires t.here == 1 && second.here == 2 && Following(t) == Some(second)
    ensures Outcomes(t, NEARLY_FULL, 100, 100) == [Outcome(NotEnoughRoom, 40, 40), Outcome(NotEnoughRoom, 20, 20)]
    ensures NEARLY_FULL[3].free > 0
  {
    var o, p := Outcome(NotEnoughRoom, 40, 40), Outcome(NotEnoughRoom, 20, 20);
    TwoMerges(o, p);
    hide Following, Remainder;
    var rooms := Filled(NEARLY_FULL, 1);
    assert Answer(RoomOf(NEARLY_FULL, 1), 100) == o && Answer(RoomOf(rooms, 2), 60) == p;
    assert Outcomes(second, rooms, 60, 40) == [p];
    assert [o] + [p] == [o, p];
  }

  lemma TwoMerges(o: Outcome, p: Outcome)
    requires o == Outcome(NotEnoughRoom, 40, 40) && p == Outcome(NotEnoughRoom, 20, 20)
    ensures NextOutcome([o, p]) == o && LaterOutcomes([o, p]) == [p] && NextOutcome([p]) == p
    ensures Moved(o, 100) == 40 && Remainder(100, o, 100) == 40 && Moved(p, 60) == 20 && Remainder(40, p, 60) == 0
  {
  }

  lemma ThreeBoxes(first: Tour, second: Tour)
    requires first == Tour(1, [[Sub(2, []), Sub(3, [])]], None, None)
    requires second == Tour(2, [[Sub(3, [])]], Some([]), None)
    ensures Sound(first) && Sound(second) && Path(first) == [1, 2, 3]
    ensures Following(first) == Some(second) && Following(second).Some?
  {
    var third := Tour(3, [], Some([]), None);
    OneList(Sub(2, []), [Sub(3, [])]);
    OneList(Sub(3, []), []);
    PathNext(first);
    PathNext(second);
    PathNext(third);
  }

  lemma OneList(first: Thing, rest: seq<Thing>)
    requires first.Sub? && first.inside == []
    ensures FindNext([[first] + rest]) == At(first.id, [], Iterator(rest))
    ensures FindNext([]) == End
  {
    var over := [[first] + rest];
    assert over[0][1..] == rest && over[1..] == [] && Queued(over) == [];
  }

  lemma GoesOnIsLater(t: Tour, o: Outcome, count: nat, remainder: nat)
    requires GoesOn(t, o, count, remainder)
    ensures Following(t).Some? && Later(Following(t).value, t)
  {
    FollowingIsLater(t);
  }

  /** r is what the loop comes to when t is its next attempt. */
  ghost predicate Pending(r: Result, tried: seq<nat>, t: Tour, outcomes: seq<Outcome>, count: nat, remainder: nat)
  {
    r == Before(tried, Run(t, outcomes, count, remainder))
  }

  lemma PendingAtFirst(t: Tour, outcomes: seq<Outcome>, count: nat, remainder: nat)
    ensures Pending(Run(t, outcomes, count, remainder), [], t, outcomes, count, remainder)
  {
    hide Run;
    var r := Run(t, outcomes, count, remainder);
    assert [] + r.tried == r.tried;
  }

  lemma PendingNext(r: Result, tried: seq<nat>, t: Tour, outcomes: seq<Outcome>, count: nat, remainder: nat)
    requires Pending(r, tried, t, outcomes, count, remainder)
    ensures var o := NextOutcome(outcomes);
      var left := count - Moved(o, count);
      if GoesOn(t, o, count, remainder)
      then Pending(r, tried + [t.here], Following(t).value, LaterOutcomes(outcomes), left,
             Remainder(remainder, o, count))
      else r.ret == o.ret && r.tried == tried + [t.here] && r.left == left
  {
    RunStops(t, outcomes, count, remainder);
    RunGoesOn(tried, t, outcomes, count, remainder);
    hide Run, Following, Remainder, Moved;
  }

  // --------------------------------------------------------------------
  // The loop on its state
  // --------------------------------------------------------------------

  class Looting {
    const backpack: Option<Box>
    const quickLootFallbackToMainContainer: bool
    var containerIterator: Over
    var lootContainer: Option<nat>
    var lastSubContainer: Option<seq<Thing>>
    var fallbackConsumed: bool
    var count: nat           // of the item that is looted
    var remainderCount: nat

    /** An item of so many pieces that no container has been tried for. */
    constructor (backpack: Option<Box>, quickLootFallbackToMainContainer: bool, count: nat)
      ensures this.backpack == backpack
      ensures this.count == count && Fallback() == if quickLootFallbackToMainContainer then backpack else None
    {
      this.backpack, this.quickLootFallbackToMainContainer := backpack, quickLootFallbackToMainContainer;
      containerIterator, lootContainer, lastSubContainer, fallbackConsumed := [], None, None, false;
      this.count, remainderCount := count, count;
    }

    function Fallback(): Option<Box>
      reads this`fallbackConsumed
    {
      if fallbackConsumed || !quickLootFallbackToMainContainer then None else backpack
    }

    ghost function Now(): Tour
      requires lootContainer.Some?
      reads this
    {
      Tour(lootContainer.value, containerIterator, lastSubContainer, Fallback())
    }

    method FindNextAvailableContainer() returns (next: Option<nat>)
      modifies this`containerIterator, this`lootContainer, this`lastSubContainer
      ensures next.Some? ==> lootContainer == next
      ensures match FindNext(old(containerIterator))
        case At(id, inside, over) => next == Some(id) && containerIterator == over && lastSubContainer == Some(inside)
        case End =>
          containerIterator == [] && lastSubContainer == Forget(old(lastSubContainer)) &&
          next == if LastItem(old(lastSubContainer)).Sub? then Some(LastItem(old(lastSubContainer)).id) else None
    {
      while containerIterator != []
        invariant FindNext(containerIterator) == FindNext(old(containerIterator))
        invariant lastSubContainer == old(lastSubContainer)
        decreases SizeAll(containerIterator)
      {
        var cur := containerIterator[0][0];
        AdvanceShrinks(containerIterator);
        containerIterator := Advance(containerIterator);
        if cur.Sub? {
          lastSubContainer := Some(cur.inside);
          lootContainer := Some(cur.id);
          return lootContainer;
        }
      }
      if lastSubContainer.Some? && lastSubContainer.value != [] {
        var cur := lastSubContainer.value[|lastSubContainer.value| - 1];
        lootContainer := if cur.Sub? then Some(cur.id) else None;
        lastSubContainer := None;
        return lootContainer;
      }
      next := None;
    }

    method HandleFallbackLogic() returns (ok: bool)
      modifies this`containerIterator, this`lootContainer
      ensures ok == Fallback().Some?
      ensures ok ==> lootContainer == Some(backpack.value.id) && containerIterator == Iterator(backpack.value.inside)
      ensures !ok ==> containerIterator == old(containerIterator) && lootContainer == old(lootContainer)
    {
      if fallbackConsumed || !quickLootFallbackToMainContainer || backpack.None? {
        return false;
      }
      lootContainer := Some(backpack.value.id);
      containerIterator := Iterator(backpack.value.inside);
      ok := true;
    }

    /** processMoveOrAddItemToLootContainer, for an item that lies in a container. */
    method Attempt(o: Outcome) returns (ret: Ret)
      modifies this`count, this`remainderCount
      ensures ret == o.ret && count == old(count) - Moved(o, old(count))
      ensures remainderCount == Remainder(old(remainderCount), o, old(count))
    {
      remainderCount := Remainder(remainderCount, o, count);
      count := count - Moved(o, count);
      ret := o.ret;
    }

    /** The next container, or the fallback; false when there is neither. */
    method GoOn() returns (more: bool)
      requires lootContainer.Some?
      modifies this`containerIterator, this`lootContainer, this`lastSubContainer, this`fallbackConsumed
      ensures more == Following(old(Now())).Some?
      ensures more ==> lootContainer.Some? && Now() == Following(old(Now())).value
    {
      var nextContainer := FindNextAvailableContainer();
      if nextContainer.None? {
        more := HandleFallbackLogic();
        if !more {
          return;
        }
      }
      fallbackConsumed := fallbackConsumed || nextContainer.None?;
      more := true;
    }

    /** One turn of the loop: an attempt, and the next container if there is a reason to go on. */
    method Turn(o: Outcome) returns (ret: Ret, more: bool)
      requires lootContainer.Some?
      modifies this
      ensures ret == o.ret && more == GoesOn(old(Now()), o, old(count), old(remainderCount))
      ensures count == old(count) - Moved(o, old(count))
      ensures more ==> lootContainer.Some? && Now() == Following(old(Now())).value &&
                       remainderCount == Remainder(old(remainderCount), o, old(count))
    {
      hide Following, Remainder, Moved;
      more := false;
      ret := Attempt(o);
      if ret != NotEnoughRoom {
        return;
      }
      more := GoOn();
      more := more && remainderCount != 0;
    }

    method ProcessLootItems(box: Box, outcomes: seq<Outcome>) returns (ret: Ret, ghost tried: seq<nat>)
      modifies this
      ensures var r := Run(Tour(box.id, Iterator(box.inside), None, old(Fallback())), outcomes, old(count), old(count));
        ret == r.ret && tried == r.tried && count == r.left
    {
      hide Pending, Following, Run, Remainder, Moved, GoesOn, SizeAll, Iterator;
      lootContainer, lastSubContainer, remainderCount := Some(box.id), None, count;
      containerIterator := Iterator(box.inside);
      tried := [];
      var later := outcomes;
      ghost var r := Run(Now(), outcomes, count, count);
      PendingAtFirst(Now(), outcomes, count, count);
      while true
        invariant lootContainer.Some?
        invariant Pending(r, tried, Now(), later, count, remainderCount)
        decreases Fallback().Some?, SizeAll(containerIterator), lastSubContainer.Some?
      {
        label L:
        ghost var t := Now();
        PendingNext(r, tried, t, later, count, remainderCount);
        tried := tried + [lootContainer.value];
        var more;
        ret, more := Turn(NextOutcome(later));
        if !more {
          return;
        }
        GoesOnIsLater(t, NextOutcome(later), old@L(count), old@L(remainderCount));
        later := LaterOutcomes(later);
      }
    }
  }
}
