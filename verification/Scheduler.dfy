// The creature scheduler: buckets of creatures, swept one per interval
// (src/game/game.cpp:5906-5954).
module Scheduler {

  type Creature = nat

  const EVENT_CREATURECOUNT: nat := 10

  datatype State = State(
    lists: seq<seq<Creature>>,  // checkCreatureLists
    index: nat,                 // the bucket that is due
    check: set<Creature>,       // creatureCheck is set
    listed: set<Creature>       // inCheckCreaturesVector is set
  )

  /** What onThink, onAttacking, conditions and onDeath may do to the scheduler; the bucket is random. */
  datatype Op = Add(c: Creature, bucket: nat) | Remove(c: Creature)

  predicate Shaped(s: State) {
    |s.lists| == EVENT_CREATURECOUNT && s.index < EVENT_CREATURECOUNT
  }

  // --------------------------------------------------------------------
  // The steps
  // --------------------------------------------------------------------

  /** addCreatureCheck */
  function AddCheck(s: State, c: Creature, bucket: nat): State
    requires Shaped(s)
  {
    var t := s.(check := s.check + {c});
    if c in s.listed then t else
    var b := bucket % EVENT_CREATURECOUNT;
    t.(listed := s.listed + {c}, lists := s.lists[b := s.lists[b] + [c]])
  }

  /** removeCreatureCheck */
  function RemoveCheck(s: State, c: Creature): State {
    if c in s.listed then s.(check := s.check - {c}) else s
  }

  function Apply(s: State, op: Op): State
    requires Shaped(s)
  {
    match op
    case Add(c, b) => AddCheck(s, c, b)
    case Remove(c) => RemoveCheck(s, c)
  }

  function ApplyAll(s: State, ops: seq<Op>): (t: State)
    requires Shaped(s)
    ensures Shaped(t) && t.index == s.index
    ensures Due(s) <= Due(t)
    decreases |ops|
  {
    if ops == [] then s else ApplyAll(Apply(s, ops[0]), ops[1..])
  }

  function Due(s: State): seq<Creature>
    requires Shaped(s)
  {
    s.lists[s.index]
  }

  /** The creature at `it` is inactive: the last one takes its place. */
  function Evict(s: State, it: nat): (t: State)
    requires Shaped(s) && it < |Due(s)|
    ensures Shaped(t) && t.index == s.index
  {
    var l := Due(s);
    s.(listed := s.listed - {l[it]}, lists := s.lists[s.index := l[it := l[|l| - 1]][..|l| - 1]])
  }

  /** The state after a sweep, who got a turn, and who was taken out. */
  datatype Sweep = Sweep(s: State, turns: seq<Creature>, evicted: seq<Creature>)

  function NextOps(ops: seq<seq<Op>>): seq<Op> {
    if ops == [] then [] else ops[0]
  }

  function LaterOps(ops: seq<seq<Op>>): seq<seq<Op>> {
    if ops == [] then [] else ops[1..]
  }

  /** The turns take what the creatures do in order, and do nothing once that is used up. */
  lemma OpsInOrder(ops: seq<seq<Op>>)
    ensures ops != [] ==> [NextOps(ops)] + LaterOps(ops) == ops
    ensures ops == [] ==> NextOps(ops) == [] && LaterOps(ops) == []
  {
  }

  /** The loop of checkCreatures between it and end; the first of ops are those of the next turn. */
  function SweepFrom(s: State, it: nat, end: nat, ops: seq<seq<Op>>): (r: Sweep)
    requires Shaped(s) && it <= end <= |Due(s)|
    ensures Shaped(r.s) && r.s.index == s.index
    decreases end - it
  {
    if it == end then Sweep(s, [], []) else
    var c := Due(s)[it];
    if c in s.check then
      var r := SweepFrom(ApplyAll(s, NextOps(ops)), it + 1, end, LaterOps(ops));
      r.(turns := [c] + r.turns)
    else
      var r := SweepFrom(Evict(s, it), it, end - 1, ops);
      r.(evicted := [c] + r.evicted)
  }

  /** checkCreatures */
  function SweepDue(s: State, ops: seq<seq<Op>>): Sweep
    requires Shaped(s)
  {
    var r := SweepFrom(s, 0, |Due(s)|, ops);
    r.(s := r.s.(index := (s.index + 1) % EVENT_CREATURECOUNT))
  }

  // --------------------------------------------------------------------
  // The invariant
  // --------------------------------------------------------------------

  function Count(l: seq<Creature>, c: Creature): nat {
    multiset(l)[c]
  }

  /** How often a creature occurs over all buckets. */
  function Occurs(lists: seq<seq<Creature>>, c: Creature): nat {
    if lists == [] then 0 else Count(lists[0], c) + Occurs(lists[1..], c)
  }

  ghost predicate Marked(s: State, c: Creature) {
    Occurs(s.lists, c) == if c in s.listed then 1 else 0
  }

  /** A creature is marked as listed exactly when it occurs once over all buckets, and not at all otherwise. */
  ghost predicate Valid(s: State) {
    Shaped(s) && forall c {:trigger Marked(s, c)} :: Marked(s, c)
  }

  lemma {:induction false} OccursSet(lists: seq<seq<Creature>>, b: nat, l: seq<Creature>, c: Creature)
    requires b < |lists|
    ensures Occurs(lists[b := l], c) + Count(lists[b], c) == Occurs(lists, c) + Count(l, c)
  {
    if b > 0 {
      assert lists[b := l][1..] == lists[1..][b - 1 := l];
      OccursSet(lists[1..], b - 1, l, c);
    } else {
      assert lists[b := l][1..] == lists[1..];
    }
  }

  lemma {:induction false} OccursAtLeast(lists: seq<seq<Creature>>, b: nat, c: Creature)
    requires b < |lists|
    ensures Occurs(lists, c) >= Count(lists[b], c)
  {
    if b > 0 {
      OccursAtLeast(lists[1..], b - 1, c);
    }
  }

  lemma ApplyValid(s: State, op: Op)
    requires Valid(s)
    ensures Valid(Apply(s, op))
  {
    var t := Apply(s, op);
    forall c ensures Marked(t, c) {
      assert Marked(s, c);
      if op.Add? && op.c !in s.listed {
        var b := op.bucket % EVENT_CREATURECOUNT;
        OccursSet(s.lists, b, s.lists[b] + [op.c], c);
      }
    }
  }

  lemma {:induction false} ApplyAllValid(s: State, ops: seq<Op>)
    requires Valid(s)
    ensures Valid(ApplyAll(s, ops))
    decreases |ops|
  {
    if ops != [] {
      ApplyValid(s, ops[0]);
      ApplyAllValid(Apply(s, ops[0]), ops[1..]);
    }
  }

  lemma Swapped(l: seq<Creature>, it: nat, c: Creature)
    requires it < |l|
    ensures Count(l[it := l[|l| - 1]][..|l| - 1], c) + (if c == l[it] then 1 else 0) == Count(l, c)
  {
    var n := |l| - 1;
    if it < n {
      assert l[it := l[n]][..n] == l[..it] + [l[n]] + l[it + 1..n];
      assert l == l[..it] + [l[it]] + l[it + 1..n] + [l[n]];
    } else {
      assert l[it := l[n]][..n] == l[..n];
      assert l == l[..n] + [l[n]];
    }
  }

  lemma EvictValid(s: State, it: nat)
    requires Valid(s) && it < |Due(s)|
    ensures Valid(Evict(s, it))
  {
    var l, t := Due(s), Evict(s, it);
    forall c ensures Marked(t, c) {
      assert Marked(s, c);
      Swapped(l, it, c);
      OccursSet(s.lists, s.index, l[it := l[|l| - 1]][..|l| - 1], c);
      OccursAtLeast(s.lists, s.index, c);
    }
  }

  /** A sweep keeps the invariant, whatever the creatures do during their turns. */
  lemma {:induction false} SweepValid(s: State, it: nat, end: nat, ops: seq<seq<Op>>)
    requires Valid(s) && it <= end <= |Due(s)|
    ensures Valid(SweepFrom(s, it, end, ops).s)
    decreases end - it
  {
    if it < end {
      if Due(s)[it] in s.check {
        ApplyAllValid(s, NextOps(ops));
        SweepValid(ApplyAll(s, NextOps(ops)), it + 1, end, LaterOps(ops));
      } else {
        EvictValid(s, it);
        SweepValid(Evict(s, it), it, end - 1, ops);
      }
    }
  }

  /** One of the buckets alone holds no creature twice. */
  lemma NoneTwice(s: State, b: nat, i: nat, j: nat)
    requires Valid(s) && b < |s.lists| && i < j < |s.lists[b]|
    ensures s.lists[b][i] != s.lists[b][j]
  {
    var l := s.lists[b];
    assert Marked(s, l[i]);
    OccursAtLeast(s.lists, b, l[i]);
    if l[i] == l[j] {
      Twice(l, i, j);
    }
  }

  lemma Twice(l: seq<Creature>, i: nat, j: nat)
    requires i < j < |l| && l[i] == l[j]
    ensures Count(l, l[i]) >= 2
  {
    assert l == l[..i] + [l[i]] + l[i + 1..j] + [l[j]] + l[j + 1..];
  }

  // --------------------------------------------------------------------
  // Who gets a turn
  // --------------------------------------------------------------------

  /** The result of a sweep from `it` to `end`, with what had a turn in front. */
  predicate InFront(s: State, it: nat, end: nat, r: Sweep)
    requires Shaped(s) && Shaped(r.s) && it <= end <= |Due(s)|
  {
    |r.turns| + |r.evicted| == end - it && it + |r.turns| <= |Due(r.s)| &&
    Due(r.s)[..it] == Due(s)[..it] && Due(r.s)[it..it + |r.turns|] == r.turns
  }

  /** What has had a turn stays in front, in the order of the turns; every step of the window is a turn or
      an eviction. */
  lemma {:induction false} TurnsInFront(s: State, it: nat, end: nat, ops: seq<seq<Op>>)
    requires Shaped(s) && it <= end <= |Due(s)|
    ensures InFront(s, it, end, SweepFrom(s, it, end, ops))
    decreases end - it
  {
    hide InFront, SweepFrom, ApplyAll, Evict;
    if it == end {
      NobodyInFront(s, it, ops);
    } else if Due(s)[it] in s.check {
      var t := ApplyAll(s, NextOps(ops));
      TurnsInFront(t, it + 1, end, LaterOps(ops));
      OneInFront(s, it, end, ops);
    } else {
      OneEviction(s, it, end, ops);
      TurnsInFront(Evict(s, it), it, end - 1, ops);
      NoneInFront(s, it, end, ops);
    }
  }

  lemma NobodyInFront(s: State, it: nat, ops: seq<seq<Op>>)
    requires Shaped(s) && it <= |Due(s)|
    ensures InFront(s, it, it, SweepFrom(s, it, it, ops))
  {
  }

  lemma OneInFront(s: State, it: nat, end: nat, ops: seq<seq<Op>>)
    requires Shaped(s) && it < end <= |Due(s)| && Due(s)[it] in s.check
    requires var t := ApplyAll(s, NextOps(ops)); InFront(t, it + 1, end, SweepFrom(t, it + 1, end, LaterOps(ops)))
    ensures InFront(s, it, end, SweepFrom(s, it, end, ops))
  {
    hide SweepFrom, ApplyAll;
    OneTurn(s, it, end, ops);
  }

  lemma NoneInFront(s: State, it: nat, end: nat, ops: seq<seq<Op>>)
    requires Shaped(s) && it < end <= |Due(s)| && Due(s)[it] !in s.check && end - 1 <= |Due(Evict(s, it))|
    requires InFront(Evict(s, it), it, end - 1, SweepFrom(Evict(s, it), it, end - 1, ops))
    ensures InFront(s, it, end, SweepFrom(s, it, end, ops))
  {
    hide SweepFrom;
    OneEviction(s, it, end, ops);
    assert Due(Evict(s, it))[..it] == Due(s)[..it];
  }

  /** In one sweep no creature gets two turns. */
  lemma AtMostOneTurn(s: State, ops: seq<seq<Op>>, i: nat, j: nat)
    requires Valid(s)
    ensures var r := SweepDue(s, ops); i < j < |r.turns| ==> r.turns[i] != r.turns[j]
    ensures Valid(SweepDue(s, ops).s)
  {
    var r := SweepFrom(s, 0, |Due(s)|, ops);
    SweepValid(s, 0, |Due(s)|, ops);
    TurnsInFront(s, 0, |Due(s)|, ops);
    if i < j < |r.turns| {
      NoneTwice(r.s, s.index, i, j);
    }
    var t := SweepDue(s, ops).s;
    forall c ensures Marked(t, c) {
      assert Marked(r.s, c);
    }
  }

  /** The sweep gave a turn to, or evicted, each of these members, as often as it occurs. */
  predicate Accounted(r: Sweep, members: seq<Creature>, c: Creature) {
    Count(r.turns, c) + Count(r.evicted, c) == Count(members, c)
  }

  /** Somewhere in the sweep an inactive creature is replaced by one that was appended since the sweep began,
      while the window still holds others behind it. */
  predicate Overtaken(s: State, it: nat, end: nat, ops: seq<seq<Op>>)
    requires Shaped(s) && it <= end <= |Due(s)|
    decreases end - it
  {
    it < end &&
    if Due(s)[it] in s.check then Overtaken(ApplyAll(s, NextOps(ops)), it + 1, end, LaterOps(ops))
    else (end < |Due(s)| && it < end - 1) || Overtaken(Evict(s, it), it, end - 1, ops)
  }

  /** Every member of the window is accounted for exactly when nothing overtakes. */
  lemma AccountedUnlessOvertaken(s: State, it: nat, end: nat, ops: seq<seq<Op>>)
    requires Valid(s) && it <= end <= |Due(s)|
    ensures (forall c :: Accounted(SweepFrom(s, it, end, ops), Due(s)[it..end], c)) <==> !Overtaken(s, it, end, ops)
  {
    if Overtaken(s, it, end, ops) {
      var c := SomeoneMissed(s, it, end, ops);
    } else {
      forall c ensures Accounted(SweepFrom(s, it, end, ops), Due(s)[it..end], c) {
        AllAccounted(s, it, end, ops, c);
      }
    }
  }

  /** In a whole sweep every member of the bucket has a turn or is evicted, as often as it is listed, exactly
      when nothing overtakes. */
  lemma SweepAccounts(s: State, ops: seq<seq<Op>>)
    requires Valid(s)
    ensures (forall c :: Accounted(SweepFrom(s, 0, |Due(s)|, ops), Due(s), c)) <==> !Overtaken(s, 0, |Due(s)|, ops)
  {
    AccountedUnlessOvertaken(s, 0, |Due(s)|, ops);
    assert Due(s)[0..|Due(s)|] == Due(s);
  }

  lemma {:induction false} AllAccounted(s: State, it: nat, end: nat, ops: seq<seq<Op>>, c: Creature)
    requires Shaped(s) && it <= end <= |Due(s)| && !Overtaken(s, it, end, ops)
    ensures Accounted(SweepFrom(s, it, end, ops), Due(s)[it..end], c)
    decreases end - it
  {
    hide *;
    if it == end {
      NothingToDo(s, it, ops, c);
    } else if Due(s)[it] in s.check {
      AfterTurn(s, it, end, ops);
      AllAccounted(ApplyAll(s, NextOps(ops)), it + 1, end, LaterOps(ops), c);
      TurnAccounted(s, it, end, ops, c);
    } else {
      NotOvertakenHere(s, it, end, ops);
      AfterEviction(s, it, end, ops);
      AllAccounted(Evict(s, it), it, end - 1, ops, c);
      EvictionAccounted(s, it, end, ops, c);
    }
  }

  /** Some creature is counted more often than the window holds it. */
  lemma {:induction false} SomeoneMissed(s: State, it: nat, end: nat, ops: seq<seq<Op>>) returns (c: Creature)
    requires Valid(s) && it <= end <= |Due(s)| && Overtaken(s, it, end, ops)
    ensures !Accounted(SweepFrom(s, it, end, ops), Due(s)[it..end], c)
    decreases end - it
  {
    hide *;
    ValidIsShaped(s);
    NotAtTheEnd(s, it, end, ops);
    if Due(s)[it] in s.check {
      AfterTurn(s, it, end, ops);
      ApplyAllValid(s, NextOps(ops));
      c := SomeoneMissed(ApplyAll(s, NextOps(ops)), it + 1, end, LaterOps(ops));
      TurnAccounted(s, it, end, ops, c);
    } else if end < |Due(s)| && it < end - 1 {
      c := Due(s)[|Due(s)| - 1];
      Overtakes(s, it, end, ops);
    } else {
      AfterEviction(s, it, end, ops);
      EvictValid(s, it);
      c := SomeoneMissed(Evict(s, it), it, end - 1, ops);
      EvictionAccounted(s, it, end, ops, c);
    }
  }

  lemma ValidIsShaped(s: State)
    requires Valid(s)
    ensures Shaped(s)
  {
  }

  lemma NotAtTheEnd(s: State, it: nat, end: nat, ops: seq<seq<Op>>)
    requires Shaped(s) && it <= end <= |Due(s)| && Overtaken(s, it, end, ops)
    ensures it < end
  {
  }

  lemma NotOvertakenHere(s: State, it: nat, end: nat, ops: seq<seq<Op>>)
    requires Shaped(s) && it < end <= |Due(s)| && !Overtaken(s, it, end, ops) && Due(s)[it] !in s.check
    ensures end == |Due(s)| || it == end - 1
  {
  }

  lemma NothingToDo(s: State, it: nat, ops: seq<seq<Op>>, c: Creature)
    requires Shaped(s) && it <= |Due(s)|
    ensures Accounted(SweepFrom(s, it, it, ops), Due(s)[it..it], c)
  {
  }

  /** A turn leaves the rest of the window as it was. */
  lemma AfterTurn(s: State, it: nat, end: nat, ops: seq<seq<Op>>)
    requires Shaped(s) && it < end <= |Due(s)| && Due(s)[it] in s.check
    ensures var t := ApplyAll(s, NextOps(ops));
      Shaped(t) && end <= |Due(t)| && Due(t)[it + 1..end] == Due(s)[it + 1..end] &&
      (Overtaken(s, it, end, ops) <==> Overtaken(t, it + 1, end, LaterOps(ops)))
  {
    hide ApplyAll;
  }

  /** An eviction leaves a window, one shorter. */
  lemma AfterEviction(s: State, it: nat, end: nat, ops: seq<seq<Op>>)
    requires Shaped(s) && it < end <= |Due(s)| && Due(s)[it] !in s.check
    requires end == |Due(s)| || it == end - 1
    ensures Shaped(Evict(s, it)) && end - 1 <= |Due(Evict(s, it))|
    ensures Overtaken(s, it, end, ops) <==> Overtaken(Evict(s, it), it, end - 1, ops)
  {
    OneEviction(s, it, end, ops);
  }

  lemma TurnAccounted(s: State, it: nat, end: nat, ops: seq<seq<Op>>, c: Creature)
    requires Shaped(s) && it < end <= |Due(s)| && Due(s)[it] in s.check
    ensures var r := SweepFrom(ApplyAll(s, NextOps(ops)), it + 1, end, LaterOps(ops));
      Accounted(SweepFrom(s, it, end, ops), Due(s)[it..end], c) <==> Accounted(r, Due(s)[it + 1..end], c)
  {
    hide SweepFrom, ApplyAll;
    OneTurn(s, it, end, ops);
    assert Due(s)[it..end] == [Due(s)[it]] + Due(s)[it + 1..end];
  }

  lemma EvictionAccounted(s: State, it: nat, end: nat, ops: seq<seq<Op>>, c: Creature)
    requires Shaped(s) && it < end <= |Due(s)| && Due(s)[it] !in s.check
    requires end == |Due(s)| || it == end - 1
    ensures var t := Evict(s, it);
      Accounted(SweepFrom(s, it, end, ops), Due(s)[it..end], c) <==>
        Accounted(SweepFrom(t, it, end - 1, ops), Due(t)[it..end - 1], c)
  {
    OneEviction(s, it, end, ops);
    WindowAfterEviction(s, it, end, c);
    hide SweepFrom, Evict, Due, Count;
  }

  lemma WindowAfterEviction(s: State, it: nat, end: nat, c: Creature)
    requires Shaped(s) && it < end <= |Due(s)| && (end == |Due(s)| || it == end - 1)
    ensures end - 1 <= |Due(Evict(s, it))|
    ensures Count(Due(s)[it..end], c) == Count(Due(Evict(s, it))[it..end - 1], c) + if Due(s)[it] == c then 1 else 0
  {
    var l := Due(s);
    if end == |l| {
      SwappedTail(l, it, c);
      assert l[it..end] == l[it..];
      var m := l[it := l[|l| - 1]][..|l| - 1];
      assert Due(Evict(s, it)) == m && m[it..end - 1] == m[it..];
    } else {
      assert l[it..end] == [l[it]];
      assert Due(Evict(s, it))[it..end - 1] == [];
    }
  }

  /** A creature that was appended takes the place of the evicted one, and is next. */
  lemma Overtakes(s: State, it: nat, end: nat, ops: seq<seq<Op>>)
    requires Valid(s) && it < end - 1 < end < |Due(s)| && Due(s)[it] !in s.check
    ensures !Accounted(SweepFrom(s, it, end, ops), Due(s)[it..end], Due(s)[|Due(s)| - 1])
  {
    hide SweepFrom, Valid;
    ValidIsShaped(s);
    var l := Due(s);
    var last := |l| - 1;
    var t := Evict(s, it);
    OneEviction(s, it, end, ops);
    NextIsCounted(t, it, end - 1, ops);
    forall k | it <= k < end ensures l[k] != l[last] {
      NoneTwice(s, s.index, k, last);
    }
    assert l[last] !in l[it..end];
  }

  lemma NextIsCounted(s: State, it: nat, end: nat, ops: seq<seq<Op>>)
    requires Shaped(s) && it < end <= |Due(s)|
    ensures var r := SweepFrom(s, it, end, ops); Count(r.turns, Due(s)[it]) + Count(r.evicted, Due(s)[it]) >= 1
  {
    hide SweepFrom, ApplyAll;
    if Due(s)[it] in s.check {
      OneTurn(s, it, end, ops);
    } else {
      OneEviction(s, it, end, ops);
    }
  }

  lemma OneTurn(s: State, it: nat, end: nat, ops: seq<seq<Op>>)
    requires Shaped(s) && it < end <= |Due(s)| && Due(s)[it] in s.check
    ensures var r := SweepFrom(ApplyAll(s, NextOps(ops)), it + 1, end, LaterOps(ops));
      SweepFrom(s, it, end, ops) == r.(turns := [Due(s)[it]] + r.turns)
  {
  }

  lemma OneEviction(s: State, it: nat, end: nat, ops: seq<seq<Op>>)
    requires Shaped(s) && it < end <= |Due(s)| && Due(s)[it] !in s.check
    ensures var r := SweepFrom(Evict(s, it), it, end - 1, ops);
      SweepFrom(s, it, end, ops) == r.(evicted := [Due(s)[it]] + r.evicted)
    ensures var l := Due(s); Due(Evict(s, it)) == l[it := l[|l| - 1]][..|l| - 1]
  {
  }

  lemma SwappedTail(l: seq<Creature>, it: nat, c: Creature)
    requires it < |l|
    ensures Count(l[it := l[|l| - 1]][..|l| - 1][it..], c) + (if c == l[it] then 1 else 0) == Count(l[it..], c)
  {
    var tail := l[it..];
    assert l[it := l[|l| - 1]][..|l| - 1][it..] == tail[0 := tail[|tail| - 1]][..|tail| - 1];
    Swapped(tail, 0, c);
  }

  /** No creature asks for this one to be removed. */
  predicate NeverRemoved(ops: seq<seq<Op>>, c: Creature) {
    forall k :: 0 <= k < |ops| ==> Remove(c) !in ops[k]
  }

  lemma {:induction false} StaysActive(s: State, ops: seq<Op>, c: Creature)
    requires Shaped(s) && c in s.check && Remove(c) !in ops
    ensures c in ApplyAll(s, ops).check
    decreases |ops|
  {
    if ops != [] {
      StaysActive(Apply(s, ops[0]), ops[1..], c);
    }
  }

  lemma {:induction false} ActiveNotEvicted(s: State, it: nat, end: nat, ops: seq<seq<Op>>, c: Creature)
    requires Shaped(s) && it <= end <= |Due(s)| && c in s.check && NeverRemoved(ops, c)
    ensures c !in SweepFrom(s, it, end, ops).evicted
    decreases end - it
  {
    if it < end {
      if Due(s)[it] in s.check {
        StaysActive(s, NextOps(ops), c);
        ActiveNotEvicted(ApplyAll(s, NextOps(ops)), it + 1, end, LaterOps(ops), c);
      } else {
        ActiveNotEvicted(Evict(s, it), it, end - 1, ops, c);
      }
    }
  }

  /** In a sweep in which nothing overtakes, every active member has exactly one turn. */
  lemma EveryActiveOneTurn(s: State, ops: seq<seq<Op>>, c: Creature)
    requires Valid(s) && c in Due(s) && c in s.check && NeverRemoved(ops, c)
    requires !Overtaken(s, 0, |Due(s)|, ops)
    ensures Count(SweepDue(s, ops).turns, c) == 1
  {
    AllAccounted(s, 0, |Due(s)|, ops, c);
    ActiveNotEvicted(s, 0, |Due(s)|, ops, c);
    assert Due(s)[0..|Due(s)|] == Due(s);
    assert Marked(s, c);
    OccursAtLeast(s.lists, s.index, c);
  }

  /** Adding this creature to this bucket appends nothing to the bucket that is swept: it is another bucket, or
      the creature is listed and stays so. */
  predicate Harmless(s: State, op: Op, ops: seq<seq<Op>>) {
    op.Add? ==> op.bucket % EVENT_CREATURECOUNT != s.index ||
                (op.c in s.listed && op.c in s.check && NeverRemoved(ops, op.c))
  }

  predicate AllHarmless(s: State, ops: seq<seq<Op>>) {
    forall k, j :: 0 <= k < |ops| && 0 <= j < |ops[k]| ==> Harmless(s, ops[k][j], ops)
  }

  /** So much can be seen from what the creatures do: then every active member has exactly one turn. */
  lemma HarmlessOneTurn(s: State, ops: seq<seq<Op>>, c: Creature)
    requires Valid(s) && c in Due(s) && c in s.check && NeverRemoved(ops, c) && AllHarmless(s, ops)
    ensures Count(SweepDue(s, ops).turns, c) == 1
  {
    NotOvertaken(s, 0, ops);
    EveryActiveOneTurn(s, ops, c);
  }

  lemma {:induction false} NotOvertaken(s: State, it: nat, ops: seq<seq<Op>>)
    requires Shaped(s) && it <= |Due(s)| && AllHarmless(s, ops)
    ensures !Overtaken(s, it, |Due(s)|, ops)
    decreases |Due(s)| - it
  {
    if it < |Due(s)| {
      hide Overtaken, AllHarmless, ApplyAll;
      if Due(s)[it] in s.check {
        HarmlessTurn(s, ops);
        AfterTurn(s, it, |Due(s)|, ops);
        NotOvertaken(ApplyAll(s, NextOps(ops)), it + 1, LaterOps(ops));
      } else {
        AfterEviction(s, it, |Due(s)|, ops);
        NotOvertaken(Evict(s, it), it, ops);
      }
    }
  }

  lemma HarmlessTurn(s: State, ops: seq<seq<Op>>)
    requires Shaped(s) && AllHarmless(s, ops)
    ensures var t := ApplyAll(s, NextOps(ops)); Due(t) == Due(s) && AllHarmless(t, LaterOps(ops))
  {
    if ops != [] {
      HarmlessOps(s, ops[0], ops);
      var t := ApplyAll(s, ops[0]);
      forall k, j | 0 <= k < |ops| - 1 && 0 <= j < |ops[k + 1]|
        ensures Harmless(t, ops[1..][k][j], ops[1..])
      {
        assert Harmless(s, ops[k + 1][j], ops);
        if ops[k + 1][j].Add? && ops[k + 1][j].bucket % EVENT_CREATURECOUNT == s.index {
          StaysActive(s, ops[0], ops[k + 1][j].c);
        }
      }
    }
  }

  lemma {:induction false} HarmlessOps(s: State, now: seq<Op>, ops: seq<seq<Op>>)
    requires Shaped(s) && forall j :: 0 <= j < |now| ==> Harmless(s, now[j], ops)
    requires forall c :: Remove(c) in now ==> !NeverRemoved(ops, c)
    ensures var t := ApplyAll(s, now); Due(t) == Due(s) && s.listed <= t.listed
    decreases |now|
  {
    if now != [] {
      var t := Apply(s, now[0]);
      forall j | 0 <= j < |now| - 1 ensures Harmless(t, now[1..][j], ops) {
        assert Harmless(s, now[j + 1], ops);
      }
      assert Harmless(s, now[0], ops);
      HarmlessOps(t, now[1..], ops);
    }
  }

  /** With a new member the swap can move it into the window and push an old member out of it: here 3. */
  lemma AppendedPushesOut()
    ensures Valid(THREE_LISTED) && 3 in Due(THREE_LISTED) && 3 in THREE_LISTED.check && NeverRemoved(FOUR_JOINS, 3)
    ensures SweepDue(THREE_LISTED, FOUR_JOINS).turns == [1, 4]
  {
    var s, ops := THREE_LISTED, FOUR_JOINS;
    OneBucketValid(s, OTHER_BUCKETS);
    hide Valid;
    var t := ApplyAll(s, ops[0]);
    assert ops[0] == [Add(4, 0)] && ops[0][1..] == [];
    assert Due(t) == [1, 2, 3, 4];
    hide ApplyAll;
    var u := Evict(t, 1);
    assert Due(u) == [1, 4, 3];
    assert SweepFrom(u, 2, 2, []).turns == [];
    assert SweepFrom(u, 1, 2, []).turns == [4];
    assert ops[1..] == [];
    OneTurn(s, 0, 3, ops);
    OneEviction(t, 1, 3, []);
  }

  const OTHER_BUCKETS: seq<seq<Creature>> := seq(EVENT_CREATURECOUNT - 1, _ => [])
  const THREE_LISTED := State([[1, 2, 3]] + OTHER_BUCKETS, 0, {1, 3}, {1, 2, 3})
  const FOUR_JOINS := [[Add(4, 0)]]

  lemma OneBucketValid(s: State, rest: seq<seq<Creature>>)
    requires rest == OTHER_BUCKETS
    requires s == State([[1, 2, 3]] + rest, 0, {1, 3}, {1, 2, 3})
    ensures Valid(s)
  {
    forall c ensures Marked(s, c) {
      EmptyBuckets(rest, c);
      assert s.lists[1..] == rest;
    }
  }

  lemma {:induction false} EmptyBuckets(lists: seq<seq<Creature>>, c: Creature)
    requires forall b :: 0 <= b < |lists| ==> lists[b] == []
    ensures Occurs(lists, c) == 0
  {
    if lists != [] {
      EmptyBuckets(lists[1..], c);
    }
  }

  // --------------------------------------------------------------------
  // The scheduler
  // --------------------------------------------------------------------

  class Game {
    var checkCreatureLists: seq<seq<Creature>>
    var index: nat
    var check: set<Creature>
    var listed: set<Creature>

    ghost function Now(): State
      reads this
    {
      State(checkCreatureLists, index, check, listed)
    }

    /** Nobody is listed. */
    constructor ()
      ensures Valid(Now()) && check == {} && listed == {}
    {
      checkCreatureLists, index, check, listed := seq(EVENT_CREATURECOUNT, _ => []), 0, {}, {};
      new;
      forall c ensures Marked(Now(), c) {
        EmptyBuckets(checkCreatureLists, c);
      }
    }

    method AddCreatureCheck(c: Creature, random: nat)
      requires Shaped(Now())
      modifies this`check, this`listed, this`checkCreatureLists
      ensures Now() == AddCheck(old(Now()), c, random)
    {
      check := check + {c};
      if c in listed {
        return;
      }
      listed := listed + {c};
      var b := random % EVENT_CREATURECOUNT;
      checkCreatureLists := checkCreatureLists[b := checkCreatureLists[b] + [c]];
    }

    method RemoveCreatureCheck(c: Creature)
      modifies this`check
      ensures Now() == RemoveCheck(old(Now()), c)
    {
      if c in listed {
        check := check - {c};
      }
    }

    /** A creature's turn, as far as the scheduler is concerned. */
    method Turn(ops: seq<Op>)
      requires Shaped(Now())
      modifies this`check, this`listed, this`checkCreatureLists
      ensures Now() == ApplyAll(old(Now()), ops)
    {
      assert ops[0..] == ops;
      for n := 0 to |ops|
        invariant Shaped(Now())
        invariant ApplyAll(old(Now()), ops) == ApplyAll(Now(), ops[n..])
      {
        assert ops[n..][1..] == ops[n + 1..];
        match ops[n] {
          case Add(c, b) => AddCreatureCheck(c, b);
          case Remove(c) => RemoveCreatureCheck(c);
        }
      }
    }

    /** checkCreatures; `turns` are the creatures that thought, in order. */
    method CheckCreatures(ops: seq<seq<Op>>) returns (turns: seq<Creature>)
      requires Valid(Now())
      modifies this
      ensures Now() == SweepDue(old(Now()), ops).s && turns == SweepDue(old(Now()), ops).turns
      ensures Valid(Now())
    {
      ghost var s := Now();
      AtMostOneTurn(s, ops, 0, 0);
      turns := [];
      ghost var evicted: seq<Creature> := [];
      var it, end := 0, |checkCreatureLists[index]|;
      var later := ops;
      ResumedStart(s, ops);
      hide Resumed, ApplyAll;
      while it < end
        invariant Shaped(Now()) && index == s.index && it <= end <= |checkCreatureLists[index]|
        invariant Resumed(s, ops, turns, evicted, Now(), it, end, later)
        decreases end - it
      {
        var creature := checkCreatureLists[index][it];
        if creature in check {
          ResumedTurn(s, ops, turns, evicted, Now(), it, end, later);
          Turn(NextOps(later));
          turns := turns + [creature];
          later := LaterOps(later);
          it := it + 1;
        } else {
          ResumedEviction(s, ops, turns, evicted, Now(), it, end, later);
          RemoveAt(it);
          evicted := evicted + [creature];
          end := end - 1;
        }
      }
      ResumedEnd(s, ops, turns, evicted, Now(), it);
      index := (index + 1) % EVENT_CREATURECOUNT;
    }

    /** An inactive creature is unmarked, and the last of the bucket takes its place. */
    method RemoveAt(it: nat)
      requires Shaped(Now()) && it < |Due(Now())|
      modifies this`listed, this`checkCreatureLists
      ensures Now() == Evict(old(Now()), it)
    {
      var l := checkCreatureLists[index];
      listed := listed - {l[it]};
      l := l[it := l[|l| - 1]];
      checkCreatureLists := checkCreatureLists[index := l[..|l| - 1]];
    }
  }

  /** The sweep so far, followed by what is left of it, is the whole sweep. */
  ghost predicate Resumed(s: State, ops: seq<seq<Op>>, turns: seq<Creature>, evicted: seq<Creature>, now: State,
                          it: nat, end: nat, later: seq<seq<Op>>)
    requires Shaped(s) && Shaped(now) && it <= end <= |Due(now)|
  {
    SweepFrom(s, 0, |Due(s)|, ops) == Joined(turns, evicted, SweepFrom(now, it, end, later))
  }

  ghost function Joined(turns: seq<Creature>, evicted: seq<Creature>, r: Sweep): Sweep {
    Sweep(r.s, turns + r.turns, evicted + r.evicted)
  }

  lemma JoinedOne(turns: seq<Creature>, evicted: seq<Creature>, r: Sweep, c: Creature)
    ensures Joined(turns, evicted, r.(turns := [c] + r.turns)) == Joined(turns + [c], evicted, r)
    ensures Joined(turns, evicted, r.(evicted := [c] + r.evicted)) == Joined(turns, evicted + [c], r)
    ensures Joined([], [], r) == r
  {
    assert turns + ([c] + r.turns) == turns + [c] + r.turns;
    assert evicted + ([c] + r.evicted) == evicted + [c] + r.evicted;
    assert [] + r.turns == r.turns && [] + r.evicted == r.evicted;
  }

  lemma ResumedStart(s: State, ops: seq<seq<Op>>)
    requires Shaped(s)
    ensures Resumed(s, ops, [], [], s, 0, |Due(s)|, ops)
  {
    hide SweepFrom;
    var r := SweepFrom(s, 0, |Due(s)|, ops);
    assert [] + r.turns == r.turns && [] + r.evicted == r.evicted;
  }

  lemma ResumedTurn(s: State, ops: seq<seq<Op>>, turns: seq<Creature>, evicted: seq<Creature>, now: State,
                    it: nat, end: nat, later: seq<seq<Op>>)
    requires Shaped(s) && Shaped(now) && it < end <= |Due(now)| && Due(now)[it] in now.check
    requires Resumed(s, ops, turns, evicted, now, it, end, later)
    ensures var next := ApplyAll(now, NextOps(later));
      Resumed(s, ops, turns + [Due(now)[it]], evicted, next, it + 1, end, LaterOps(later))
  {
    hide SweepFrom, ApplyAll, Joined;
    OneTurn(now, it, end, later);
    JoinedOne(turns, evicted, SweepFrom(ApplyAll(now, NextOps(later)), it + 1, end, LaterOps(later)), Due(now)[it]);
  }

  lemma ResumedEviction(s: State, ops: seq<seq<Op>>, turns: seq<Creature>, evicted: seq<Creature>, now: State,
                        it: nat, end: nat, later: seq<seq<Op>>)
    requires Shaped(s) && Shaped(now) && it < end <= |Due(now)| && Due(now)[it] !in now.check
    requires Resumed(s, ops, turns, evicted, now, it, end, later)
    ensures end - 1 <= |Due(Evict(now, it))|
    ensures Resumed(s, ops, turns, evicted + [Due(now)[it]], Evict(now, it), it, end - 1, later)
  {
    hide SweepFrom, Joined;
    OneEviction(now, it, end, later);
    JoinedOne(turns, evicted, SweepFrom(Evict(now, it), it, end - 1, later), Due(now)[it]);
  }

  lemma ResumedEnd(s: State, ops: seq<seq<Op>>, turns: seq<Creature>, evicted: seq<Creature>, now: State, it: nat)
    requires Shaped(s) && Shaped(now) && it <= |Due(now)| && now.index == s.index
    requires exists later :: Resumed(s, ops, turns, evicted, now, it, it, later)
    ensures SweepDue(s, ops) == Sweep(now.(index := (s.index + 1) % EVENT_CREATURECOUNT), turns, evicted)
  {
    assert turns + [] == turns && evicted + [] == evicted;
  }
}
