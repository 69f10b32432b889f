// What adding and removing a creature does, over the sweeps that follow
// (src/game/game.cpp:5906-5954).
module SchedulerRuns {
  import opened Scheduler

  /** Nobody adds this creature during the sweep. */
  predicate NeverAdded(ops: seq<seq<Op>>, c: Creature) {
    forall k, j :: 0 <= k < |ops| && 0 <= j < |ops[k]| && ops[k][j].Add? ==> ops[k][j].c != c
  }

  predicate NotAdding(ops: seq<Op>, c: Creature) {
    forall j :: 0 <= j < |ops| && ops[j].Add? ==> ops[j].c != c
  }

  // --------------------------------------------------------------------
  // One sweep
  // --------------------------------------------------------------------

  lemma {:induction false} StaysOut(s: State, ops: seq<Op>, c: Creature)
    requires Shaped(s) && NotAdding(ops, c)
    ensures var t := ApplyAll(s, ops); (c !in s.check ==> c !in t.check) && (c !in s.listed ==> c !in t.listed)
    decreases |ops|
  {
    if ops != [] {
      assert NotAdding(ops[1..], c);
      StaysOut(Apply(s, ops[0]), ops[1..], c);
    }
  }

  /** An inactive creature that nobody adds has no turn and stays inactive; once unlisted, it stays so. */
  lemma {:induction false} InactiveNoTurn(s: State, it: nat, end: nat, ops: seq<seq<Op>>, c: Creature)
    requires Shaped(s) && it <= end <= |Due(s)| && NeverAdded(ops, c)
    ensures var r := SweepFrom(s, it, end, ops);
      (c !in s.check ==> c !in r.turns && c !in r.s.check) && (c !in s.listed ==> c !in r.s.listed)
    decreases end - it
  {
    hide ApplyAll, Evict;
    if it < end {
      if Due(s)[it] in s.check {
        assert NotAdding(NextOps(ops), c);
        StaysOut(s, NextOps(ops), c);
        InactiveNoTurn(ApplyAll(s, NextOps(ops)), it + 1, end, LaterOps(ops), c);
      } else {
        AfterEvict(s, it);
        InactiveNoTurn(Evict(s, it), it, end - 1, ops, c);
      }
    }
  }

  lemma AfterEvict(s: State, it: nat)
    requires Shaped(s) && it < |Due(s)|
    ensures var t := Evict(s, it);
      t.check == s.check && t.listed == s.listed - {Due(s)[it]} && |Due(t)| == |Due(s)| - 1
    ensures forall b :: 0 <= b < EVENT_CREATURECOUNT && b != s.index ==> Evict(s, it).lists[b] == s.lists[b]
  {
  }

  /** Who is taken out and not added again is not listed afterwards. */
  lemma {:induction false} EvictedIsUnlisted(s: State, it: nat, end: nat, ops: seq<seq<Op>>, c: Creature)
    requires Shaped(s) && it <= end <= |Due(s)| && NeverAdded(ops, c) && c in SweepFrom(s, it, end, ops).evicted
    ensures c !in SweepFrom(s, it, end, ops).s.listed
    decreases end - it
  {
    hide ApplyAll, Evict;
    if it < end {
      if Due(s)[it] in s.check {
        EvictedIsUnlisted(ApplyAll(s, NextOps(ops)), it + 1, end, LaterOps(ops), c);
      } else {
        AfterEvict(s, it);
        InactiveNoTurn(Evict(s, it), it, end - 1, ops, c);
        if c in SweepFrom(Evict(s, it), it, end - 1, ops).evicted {
          EvictedIsUnlisted(Evict(s, it), it, end - 1, ops, c);
        }
      }
    }
  }

  /** An inactive member of the bucket is unlisted by a sweep in which nothing overtakes. */
  lemma InactiveIsUnlisted(s: State, ops: seq<seq<Op>>, c: Creature)
    requires Valid(s) && c in Due(s) && c !in s.check && NeverAdded(ops, c) && !Overtaken(s, 0, |Due(s)|, ops)
    ensures c !in SweepDue(s, ops).s.listed
  {
    hide Overtaken;
    AllAccounted(s, 0, |Due(s)|, ops, c);
    InactiveNoTurn(s, 0, |Due(s)|, ops, c);
    assert Due(s)[0..|Due(s)|] == Due(s);
    assert Count(SweepFrom(s, 0, |Due(s)|, ops).turns, c) == 0;
    assert c in multiset(Due(s));
    assert c in multiset(SweepFrom(s, 0, |Due(s)|, ops).evicted);
    EvictedIsUnlisted(s, 0, |Due(s)|, ops, c);
  }

  /** When a listed creature is to be removed, only its flag is cleared. Unless it is added again it has no turn in
      the next sweep, and the sweep of its bucket unlists it if nothing overtakes. A creature that is not listed
      keeps its flag. */
  lemma RemovalTakesEffect(s: State, c: Creature, ops: seq<seq<Op>>)
    requires Valid(s) && NeverAdded(ops, c)
    ensures var t := RemoveCheck(s, c);
      t.lists == s.lists && t.index == s.index && t.listed == s.listed && Valid(t) &&
      (forall d: Creature :: d in t.check <==> d in s.check && !(d == c && c in s.listed)) &&
      (c in s.listed ==> c !in SweepDue(t, ops).turns && c !in SweepDue(t, ops).s.check) &&
      (c in s.lists[s.index] && !Overtaken(t, 0, |s.lists[s.index]|, ops) ==> c !in SweepDue(t, ops).s.listed)
  {
    hide Overtaken, SweepFrom;
    var t := RemoveCheck(s, c);
    ApplyValid(s, Remove(c));
    InactiveNoTurn(t, 0, |Due(t)|, ops, c);
    if c in s.lists[s.index] {
      MemberIsListed(s, s.index, c);
      if !Overtaken(t, 0, |Due(t)|, ops) {
        InactiveIsUnlisted(t, ops, c);
      }
    }
  }

  lemma MemberIsListed(s: State, b: nat, c: Creature)
    requires Valid(s) && b < EVENT_CREATURECOUNT && c in s.lists[b]
    ensures c in s.listed
  {
    assert Marked(s, c);
    OccursAtLeast(s.lists, b, c);
  }

  /** Once added, a creature is active and listed, in the bucket it was in or at the end of the one that was drawn;
      nobody else is affected. If its bucket is due, it has its turn unless it is removed or overtaken. */
  lemma AdditionTakesEffect(s: State, c: Creature, bucket: nat, ops: seq<seq<Op>>)
    requires Valid(s)
    ensures var t := AddCheck(s, c, bucket);
      t.index == s.index && Valid(t) && c in t.check && c in t.listed &&
      (forall d: Creature :: d != c ==> (d in t.check <==> d in s.check) && (d in t.listed <==> d in s.listed)) &&
      (c in s.listed ==> t.lists == s.lists) &&
      forall b :: 0 <= b < EVENT_CREATURECOUNT ==>
        t.lists[b] == s.lists[b] + if c !in s.listed && b == bucket % EVENT_CREATURECOUNT then [c] else []
    ensures var t := AddCheck(s, c, bucket);
      c in t.lists[t.index] && NeverRemoved(ops, c) && !Overtaken(t, 0, |t.lists[t.index]|, ops) ==>
        Count(SweepDue(t, ops).turns, c) == 1
  {
    hide Overtaken, SweepFrom;
    var t := AddCheck(s, c, bucket);
    ApplyValid(s, Add(c, bucket));
    if c in t.lists[t.index] && NeverRemoved(ops, c) && !Overtaken(t, 0, |Due(t)|, ops) {
      EveryActiveOneTurn(t, ops, c);
    }
  }

  // --------------------------------------------------------------------
  // Sweep after sweep
  // --------------------------------------------------------------------

  /** What happens before a sweep, and during it. */
  datatype Round = Round(before: seq<Op>, during: seq<seq<Op>>)

  function Prepared(s: State, r: Round): (t: State)
    requires Shaped(s)
    ensures Shaped(t) && t.index == s.index
  {
    ApplyAll(s, r.before)
  }

  function AfterRound(s: State, r: Round): (t: State)
    requires Shaped(s)
    ensures Shaped(t) && t.index == (s.index + 1) % EVENT_CREATURECOUNT
  {
    SweepDue(Prepared(s, r), r.during).s
  }

  function AfterRounds(s: State, rounds: seq<Round>): (t: State)
    requires Shaped(s)
    ensures Shaped(t)
    decreases |rounds|
  {
    if rounds == [] then s else AfterRounds(AfterRound(s, rounds[0]), rounds[1..])
  }

  predicate Keeps(rounds: seq<Round>, c: Creature) {
    forall k :: 0 <= k < |rounds| ==> Remove(c) !in rounds[k].before && NeverRemoved(rounds[k].during, c)
  }

  predicate LeavesOut(rounds: seq<Round>, c: Creature) {
    forall k :: 0 <= k < |rounds| ==> NotAdding(rounds[k].before, c) && NeverAdded(rounds[k].during, c)
  }

  lemma {:induction false} BucketsGrow(s: State, ops: seq<Op>, b: nat)
    requires Shaped(s) && b < EVENT_CREATURECOUNT
    ensures s.lists[b] <= ApplyAll(s, ops).lists[b]
    decreases |ops|
  {
    if ops != [] {
      BucketsGrow(Apply(s, ops[0]), ops[1..], b);
    }
  }

  /** A sweep only appends to the buckets that are not due. */
  lemma {:induction false} OthersGrow(s: State, it: nat, end: nat, ops: seq<seq<Op>>, b: nat)
    requires Shaped(s) && it <= end <= |Due(s)| && b < EVENT_CREATURECOUNT && b != s.index
    ensures s.lists[b] <= SweepFrom(s, it, end, ops).s.lists[b]
    decreases end - it
  {
    hide ApplyAll, Evict;
    if it < end {
      if Due(s)[it] in s.check {
        BucketsGrow(s, NextOps(ops), b);
        OthersGrow(ApplyAll(s, NextOps(ops)), it + 1, end, LaterOps(ops), b);
      } else {
        AfterEvict(s, it);
        OthersGrow(Evict(s, it), it, end - 1, ops, b);
      }
    }
  }

  lemma {:induction false} SweepKeepsActive(s: State, it: nat, end: nat, ops: seq<seq<Op>>, c: Creature)
    requires Shaped(s) && it <= end <= |Due(s)| && c in s.check && NeverRemoved(ops, c)
    ensures c in SweepFrom(s, it, end, ops).s.check
    decreases end - it
  {
    hide ApplyAll, Evict;
    if it < end {
      if Due(s)[it] in s.check {
        StaysActive(s, NextOps(ops), c);
        SweepKeepsActive(ApplyAll(s, NextOps(ops)), it + 1, end, LaterOps(ops), c);
      } else {
        AfterEvict(s, it);
        SweepKeepsActive(Evict(s, it), it, end - 1, ops, c);
      }
    }
  }

  /** A round whose sweep is of another bucket: who is in this one stays in it, active or inactive as it was. */
  lemma RoundElsewhere(s: State, r: Round, c: Creature, b: nat)
    requires Valid(s) && b < EVENT_CREATURECOUNT && b != s.index && c in s.lists[b]
    ensures var t := AfterRound(s, r);
      Valid(t) && c in t.lists[b] && (c in s.check && Keeps([r], c) ==> c in t.check) &&
      (c !in s.check && LeavesOut([r], c) ==> c !in t.check && c !in SweepDue(Prepared(s, r), r.during).turns)
  {
    hide ApplyAll, SweepFrom, Valid;
    assert Shaped(s) by { ValidIsShaped(s); }
    var u := Prepared(s, r);
    ApplyAllValid(s, r.before);
    AtMostOneTurn(u, r.during, 0, 0);
    BucketsGrow(s, r.before, b);
    OthersGrow(u, 0, |Due(u)|, r.during, b);
    var k := IndexOf(s.lists[b], c);
    assert u.lists[b][k] == c && AfterRound(s, r).lists[b][k] == c;
    assert [r][0] == r;
    if c in s.check && Keeps([r], c) {
      StaysActive(s, r.before, c);
      SweepKeepsActive(u, 0, |Due(u)|, r.during, c);
    }
    if c !in s.check && LeavesOut([r], c) {
      StaysOut(s, r.before, c);
      InactiveNoTurn(u, 0, |Due(u)|, r.during, c);
    }
  }

  lemma IndexOf(l: seq<Creature>, c: Creature) returns (k: nat)
    requires c in l
    ensures k < |l| && l[k] == c
  {
    k :| 0 <= k < |l| && l[k] == c;
  }

  /** How many sweeps come before the one of this bucket. */
  function Wait(s: State, b: nat): nat
    requires s.index < EVENT_CREATURECOUNT && b < EVENT_CREATURECOUNT
  {
    if s.index <= b then b - s.index else b + EVENT_CREATURECOUNT - s.index
  }

  lemma {:induction false} RoundsElsewhere(s: State, rounds: seq<Round>, c: Creature, b: nat)
    requires Valid(s) && b < EVENT_CREATURECOUNT && c in s.lists[b] && |rounds| == Wait(s, b)
    ensures var t := AfterRounds(s, rounds);
      Valid(t) && t.index == b && c in t.lists[b] && (c in s.check && Keeps(rounds, c) ==> c in t.check) &&
      (c !in s.check && LeavesOut(rounds, c) ==> c !in t.check)
    decreases |rounds|
  {
    hide Valid, AfterRound;
    ValidIsShaped(s);
    if rounds != [] {
      RoundElsewhere(s, rounds[0], c, b);
      RoundsElsewhere(AfterRound(s, rounds[0]), rounds[1..], c, b);
      assert Keeps(rounds, c) ==> Keeps([rounds[0]], c) && Keeps(rounds[1..], c);
      assert LeavesOut(rounds, c) ==> LeavesOut([rounds[0]], c) && LeavesOut(rounds[1..], c);
    }
  }

  /** An active creature has exactly one turn in the sweep of its bucket, at most nine sweeps away, unless it is
      removed by then or overtaken in that sweep. */
  lemma ActiveHasTurn(s: State, rounds: seq<Round>, last: Round, c: Creature, b: nat)
    requires Valid(s) && b < EVENT_CREATURECOUNT && c in s.lists[b] && c in s.check
    requires |rounds| == (b + EVENT_CREATURECOUNT - s.index) % EVENT_CREATURECOUNT
    requires Keeps(rounds, c) && Keeps([last], c)
    requires var t := Prepared(AfterRounds(s, rounds), last); !Overtaken(t, 0, |Due(t)|, last.during)
    ensures Count(SweepDue(Prepared(AfterRounds(s, rounds), last), last.during).turns, c) == 1
  {
    hide ApplyAll, SweepDue, Overtaken, AfterRounds, Valid;
    assert Shaped(s) by { ValidIsShaped(s); }
    RoundsElsewhere(s, rounds, c, b);
    var t := AfterRounds(s, rounds);
    assert Shaped(t) by { ValidIsShaped(t); }
    var k := IndexOf(t.lists[b], c);
    BucketsGrow(t, last.before, b);
    ApplyAllValid(t, last.before);
    assert [last][0] == last;
    StaysActive(t, last.before, c);
    var u := Prepared(t, last);
    assert u.lists[b][k] == c && Due(u) == u.lists[b];
    EveryActiveOneTurn(u, last.during, c);
  }

  /** A creature that is to be removed has no turn any more, and is unlisted at the latest by the tenth sweep,
      unless it is added again by then or overtaken in the sweep of its bucket. */
  lemma RemovedIsUnlisted(s: State, rounds: seq<Round>, last: Round, c: Creature, b: nat)
    requires Valid(s) && b < EVENT_CREATURECOUNT && c in s.lists[b]
    requires |rounds| == (b + EVENT_CREATURECOUNT - s.index) % EVENT_CREATURECOUNT
    requires LeavesOut(rounds, c) && LeavesOut([last], c)
    requires var t := Prepared(AfterRounds(RemoveCheck(s, c), rounds), last); !Overtaken(t, 0, |Due(t)|, last.during)
    ensures var t := AfterRounds(RemoveCheck(s, c), rounds + [last]); c !in t.listed && c !in t.check
    ensures forall k :: 0 <= k <= |rounds| ==> c !in TurnsOf(RemoveCheck(s, c), rounds + [last], k)
  {
    hide ApplyAll, SweepDue, Overtaken, Valid, AfterRounds, TurnsOf;
    var r := RemoveCheck(s, c);
    ApplyValid(s, Remove(c));
    MemberIsListed(s, b, c);
    RoundsElsewhere(r, rounds, c, b);
    OneMoreRound(r, rounds, last);
    LastRound(AfterRounds(r, rounds), last, c, b);
    forall k | 0 <= k <= |rounds| ensures c !in TurnsOf(r, rounds + [last], k) {
      assert LeavesOut(rounds + [last], c);
      NoTurns(r, rounds + [last], c, k);
    }
  }

  /** Who has a turn in the sweep number k of these. */
  function TurnsOf(s: State, rounds: seq<Round>, k: nat): seq<Creature>
    requires Shaped(s) && k < |rounds|
    decreases k
  {
    if k == 0 then SweepDue(Prepared(s, rounds[0]), rounds[0].during).turns
    else TurnsOf(AfterRound(s, rounds[0]), rounds[1..], k - 1)
  }

  lemma {:induction false} NoTurns(s: State, rounds: seq<Round>, c: Creature, k: nat)
    requires Shaped(s) && k < |rounds| && c !in s.check && LeavesOut(rounds, c)
    ensures c !in TurnsOf(s, rounds, k)
    decreases k
  {
    hide ApplyAll, SweepFrom;
    var u := Prepared(s, rounds[0]);
    StaysOut(s, rounds[0].before, c);
    InactiveNoTurn(u, 0, |Due(u)|, rounds[0].during, c);
    if k > 0 {
      NoTurns(AfterRound(s, rounds[0]), rounds[1..], c, k - 1);
    }
  }

  lemma {:induction false} OneMoreRound(s: State, rounds: seq<Round>, last: Round)
    requires Shaped(s)
    ensures AfterRounds(s, rounds + [last]) == AfterRound(AfterRounds(s, rounds), last)
    decreases |rounds|
  {
    hide AfterRound;
    if rounds == [] {
      assert ([] + [last])[0] == last && ([] + [last])[1..] == [];
      assert AfterRounds(AfterRound(s, last), []) == AfterRound(s, last);
    } else {
      assert (rounds + [last])[1..] == rounds[1..] + [last];
      OneMoreRound(AfterRound(s, rounds[0]), rounds[1..], last);
    }
  }

  lemma LastRound(s: State, last: Round, c: Creature, b: nat)
    requires Valid(s) && s.index == b && b < EVENT_CREATURECOUNT && c in s.lists[b] && c !in s.check
    requires LeavesOut([last], c)
    requires var t := Prepared(s, last); !Overtaken(t, 0, |Due(t)|, last.during)
    ensures var t := AfterRound(s, last); c !in t.listed && c !in t.check
  {
    hide ApplyAll, SweepFrom, Overtaken, Valid;
    assert Shaped(s) by { ValidIsShaped(s); }
    var u := Prepared(s, last);
    var k := IndexOf(s.lists[b], c);
    BucketsGrow(s, last.before, b);
    ApplyAllValid(s, last.before);
    assert [last][0] == last;
    StaysOut(s, last.before, c);
    assert u.lists[b][k] == c && Due(u) == u.lists[b];
    InactiveIsUnlisted(u, last.during, c);
    InactiveNoTurn(u, 0, |Due(u)|, last.during, c);
  }
}
