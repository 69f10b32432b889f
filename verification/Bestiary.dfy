// Kill counts of the bestiary and the charm points they earn: once for each
// species as long as its stages are in order, and again with every stage that
// is reached after the last one when they are not
// (src/io/iobestiary.cpp:217-242).
module Bestiary {

  /** The kill counts at which a creature's details unlock, and the charm points for the last of them. */
  datatype Species = Species(raceid: nat, first: nat, second: nat, toUnlock: nat, charmPoints: nat)

  /** One of the stages is reached by this kill. */
  predicate StageReached(m: Species, count: nat, amount: nat) {
    count == 0 ||
    count < m.first <= count + amount || count < m.second <= count + amount || count < m.toUnlock <= count + amount
  }

  predicate Awarded(m: Species, count: nat, amount: nat) {
    StageReached(m, count, amount) && count + amount >= m.toUnlock
  }

  function Total(amounts: seq<nat>): nat {
    if amounts == [] then 0 else amounts[0] + Total(amounts[1..])
  }

  /** How often the points are awarded over a run of kills. */
  function Awards(m: Species, count: nat, amounts: seq<nat>): nat
    decreases |amounts|
  {
    if amounts == [] then 0
    else (if Awarded(m, count, amounts[0]) then 1 else 0) + Awards(m, count + amounts[0], amounts[1..])
  }

  /** The last stage really is the last, and takes a kill. */
  predicate Ordered(m: Species) {
    m.toUnlock > 0 && m.first <= m.toUnlock && m.second <= m.toUnlock
  }

  /** The points come once, with the kill that completes the entry. */
  ghost predicate OnceOnly(m: Species, amounts: seq<nat>) {
    Awards(m, 0, amounts) == if Total(amounts) >= m.toUnlock then 1 else 0
  }

  lemma {:induction false} AwardsFrom(m: Species, count: nat, amounts: seq<nat>)
    requires Ordered(m)
    ensures Awards(m, count, amounts) == if count < m.toUnlock <= count + Total(amounts) then 1 else 0
    decreases |amounts|
  {
    if amounts != [] {
      AwardsFrom(m, count + amounts[0], amounts[1..]);
    }
  }

  /** Over every run of kills the points are awarded once, exactly when the stages are in order. */
  lemma AwardedOnce(m: Species)
    ensures Ordered(m) <==> forall amounts :: OnceOnly(m, amounts)
  {
    if Ordered(m) {
      forall amounts ensures OnceOnly(m, amounts) {
        AwardsFrom(m, 0, amounts);
      }
    } else {
      var amounts := AwardedTwice(m);
    }
  }

  lemma AwardedTwice(m: Species) returns (amounts: seq<nat>)
    requires !Ordered(m)
    ensures !OnceOnly(m, amounts)
  {
    if m.toUnlock == 0 {
      amounts := [];
    } else {
      var later := if m.first > m.toUnlock then m.first else m.second;
      amounts := [m.toUnlock, later - m.toUnlock];
      assert amounts[1..][1..] == [];
      assert Awards(m, later, []) == 0;
      assert Awards(m, m.toUnlock, amounts[1..]) == 1;
      assert Awarded(m, 0, m.toUnlock);
      assert Awards(m, 0, amounts) == 2;
    }
  }

  class Player {
    var kills: map<nat, nat>
    var charmPoints: nat

    constructor ()
      ensures kills == map[] && charmPoints == 0
    {
      kills, charmPoints := map[], 0;
    }

    function Kills(raceid: nat): nat
      reads this
    {
      if raceid in kills then kills[raceid] else 0
    }

    method AddBestiaryKill(m: Species, amount: nat)
      modifies this
      ensures m.raceid == 0 ==> kills == old(kills) && charmPoints == old(charmPoints)
      ensures var count := if m.raceid in old(kills) then old(kills)[m.raceid] else 0;
        m.raceid != 0 ==>
          kills == old(kills)[m.raceid := count + amount] &&
          charmPoints == old(charmPoints) + if Awarded(m, count, amount) then m.charmPoints else 0
    {
      if m.raceid == 0 {
        return;
      }
      var curCount := Kills(m.raceid);
      kills := kills[m.raceid := curCount + amount];
      if StageReached(m, curCount, amount) {
        if curCount + amount >= m.toUnlock {
          charmPoints := charmPoints + m.charmPoints;
        }
      }
    }
  }
}
