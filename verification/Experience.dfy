// The experience of a kill, split by damage among the attackers
// (src/creatures/creature.cpp:646-691, 1141-1162).
module Experience {
  import opened Arithmetic
  import opened Options
  import opened Sums

  type Id = nat
  type Damage = n: nat | n < 0x8000_0000  // the total of a CountBlock_t

  const U32: nat := 0x1_0000_0000

  /** An entry of damageMap. */
  datatype Block = Block(id: Id, total: Damage)

  /** A creature that is in the game. `leader` is there when the creature is a player whose party shares its
      experience. */
  datatype Being = Being(isPlayer: bool, master: Option<Id>, leader: Option<Id>)

  type World = map<Id, Being>

  // --------------------------------------------------------------------
  // The shares
  // --------------------------------------------------------------------

  function TotalDamage(blocks: seq<Block>): nat {
    if blocks == [] then 0 else TotalDamage(blocks[..|blocks| - 1]) + blocks[|blocks| - 1].total
  }

  function DamageBy(blocks: seq<Block>, id: Id): nat {
    if blocks == [] then 0
    else DamageBy(blocks[..|blocks| - 1], id) + if blocks[|blocks| - 1].id == id then blocks[|blocks| - 1].total else 0
  }

  /** floor(ratio * lost), with the exact ratio. */
  function Part(damage: nat, lost: nat, total: nat): nat
    requires total > 0
  {
    MulNonNegative(damage, lost);
    NonNegativeQuotient(damage * lost, total);
    damage * lost / total
  }

  lemma NonNegativeQuotient(x: nat, d: nat)
    requires d > 0
    ensures x / d >= 0
  {
  }

  /** getGainedExperience; both sums are 32 bits wide, the ratio is exact. */
  function Gained(blocks: seq<Block>, id: Id, lost: nat): nat {
    var total := TotalDamage(blocks) % U32;
    if total == 0 then 0 else Part(DamageBy(blocks, id) % U32, lost, total)
  }

  /** A key of damageMap occurs once. */
  predicate OncePerId(blocks: seq<Block>) {
    forall i, j :: 0 <= i < j < |blocks| ==> blocks[i].id != blocks[j].id
  }

  lemma {:induction false} NoneBy(blocks: seq<Block>, id: Id)
    requires forall i :: 0 <= i < |blocks| ==> blocks[i].id != id
    ensures DamageBy(blocks, id) == 0
  {
    if blocks != [] {
      NoneBy(blocks[..|blocks| - 1], id);
    }
  }

  lemma {:induction false} OwnDamage(blocks: seq<Block>, i: nat)
    requires OncePerId(blocks) && i < |blocks|
    ensures DamageBy(blocks, blocks[i].id) == blocks[i].total
  {
    var last := |blocks| - 1;
    if i < last {
      OwnDamage(blocks[..last], i);
    } else {
      NoneBy(blocks[..last], blocks[last].id);
    }
  }

  /** An attacker that is still in the game, and not the victim itself. */
  predicate Counts(world: World, victim: Id, b: Block) {
    b.id in world && b.id != victim
  }

  /** Who gets the share: the leader of a sharing party of the attacker or its master, or the attacker. */
  function Receiver(world: World, id: Id): Id
    requires id in world
  {
    var master := if world[id].master.Some? then world[id].master.value else id;
    if master in world && world[master].isPlayer && world[master].leader.Some? then world[master].leader.value else id
  }

  /** experienceMap after these blocks of all. */
  function SharedOut(blocks: seq<Block>, all: seq<Block>, world: World, victim: Id, lost: nat): map<Id, nat> {
    if blocks == [] then map[] else
    var m, b := SharedOut(blocks[..|blocks| - 1], all, world, victim, lost), blocks[|blocks| - 1];
    if !Counts(world, victim, b) then m else
    var r := Receiver(world, b.id);
    m[r := (if r in m then m[r] else 0) + Gained(all, b.id, lost)]
  }

  function Identity(n: nat): nat {
    n
  }

  /** All the experience that is handed out. */
  ghost function HandedOut(blocks: seq<Block>, world: World, victim: Id, lost: nat): nat {
    Sum<nat>(SharedOut(blocks, blocks, world, victim, lost), Identity)
  }

  /** The shares of the attackers that count. */
  function Shares(blocks: seq<Block>, all: seq<Block>, world: World, victim: Id, lost: nat): nat {
    if blocks == [] then 0 else
    var b := blocks[|blocks| - 1];
    Shares(blocks[..|blocks| - 1], all, world, victim, lost) +
    if Counts(world, victim, b) then Gained(all, b.id, lost) else 0
  }

  /** Sending shares to party leaders moves them about, and loses none. */
  lemma {:induction false} RedirectionKeeps(blocks: seq<Block>, all: seq<Block>, world: World, victim: Id, lost: nat)
    ensures Sum<nat>(SharedOut(blocks, all, world, victim, lost), Identity) == Shares(blocks, all, world, victim, lost)
  {
    if blocks != [] {
      var rest, b := blocks[..|blocks| - 1], blocks[|blocks| - 1];
      RedirectionKeeps(rest, all, world, victim, lost);
      if Counts(world, victim, b) {
        var m, r := SharedOut(rest, all, world, victim, lost), Receiver(world, b.id);
        SumUpdate<nat>(m, r, (if r in m then m[r] else 0) + Gained(all, b.id, lost), Identity);
      }
    }
  }

  /** What the attackers that r stands for have earned. */
  function Earned(blocks: seq<Block>, all: seq<Block>, world: World, victim: Id, lost: nat, r: Id): nat {
    if blocks == [] then 0 else
    var b := blocks[|blocks| - 1];
    Earned(blocks[..|blocks| - 1], all, world, victim, lost, r) +
    if Counts(world, victim, b) && Receiver(world, b.id) == r then Gained(all, b.id, lost) else 0
  }

  /** Each gets what those have earned that it receives for, and nobody else gets anything. */
  lemma {:induction false} EachGetsEarned(blocks: seq<Block>, all: seq<Block>, world: World, victim: Id, lost: nat,
                                          r: Id)
    ensures var m := SharedOut(blocks, all, world, victim, lost);
      (if r in m then m[r] else 0) == Earned(blocks, all, world, victim, lost, r)
  {
    if blocks != [] {
      hide Gained;
      EachGetsEarned(blocks[..|blocks| - 1], all, world, victim, lost, r);
    }
  }

  /** A creature with a master in the game stands for the master, a player with a sharing party for its leader. */
  lemma WhoReceives(world: World, id: Id)
    requires id in world
    ensures world[id].master == None && world[id].isPlayer && world[id].leader.Some? ==>
      Receiver(world, id) == world[id].leader.value
    ensures forall m <- world :: world[id].master == Some(m) && world[m].isPlayer && world[m].leader.Some? ==>
      Receiver(world, id) == world[m].leader.value
    ensures world[id].master == None && (!world[id].isPlayer || world[id].leader.None?) ==> Receiver(world, id) == id
    ensures forall m: Id ::
      world[id].master == Some(m) && (m !in world || !world[m].isPlayer || world[m].leader.None?) ==>
        Receiver(world, id) == id
  {
  }

  /** Whoever is no longer in the game, and the victim itself, earn nothing for anybody. */
  lemma {:induction false} OnlyAttackersEarn(blocks: seq<Block>, all: seq<Block>, world: World, victim: Id, lost: nat)
    ensures (forall i :: 0 <= i < |blocks| ==> blocks[i].id !in world || blocks[i].id == victim) ==>
      SharedOut(blocks, all, world, victim, lost) == map[]
    ensures blocks != [] ==>
      var b := blocks[|blocks| - 1];
      b.id in world && b.id != victim ==>
        var m := SharedOut(blocks, all, world, victim, lost);
        Receiver(world, b.id) in m && m[Receiver(world, b.id)] >= Gained(all, b.id, lost)
  {
    if blocks != [] {
      hide Gained;
      var rest := blocks[..|blocks| - 1];
      OnlyAttackersEarn(rest, all, world, victim, lost);
    }
  }

  // --------------------------------------------------------------------
  // How much that is
  // --------------------------------------------------------------------

  /** The damage of the attackers that count, and how many they are. */
  function Counted(blocks: seq<Block>, world: World, victim: Id): nat {
    if blocks == [] then 0 else
    var b := blocks[|blocks| - 1];
    Counted(blocks[..|blocks| - 1], world, victim) + if Counts(world, victim, b) then b.total else 0
  }

  lemma AddMod(a: nat, b: nat)
    ensures (a % U32 + b) % U32 == (a + b) % U32
  {
  }

  lemma GainedIs(all: seq<Block>, i: nat, lost: nat)
    requires OncePerId(all) && i < |all| && TotalDamage(all) % U32 > 0
    ensures Gained(all, all[i].id, lost) == Part(all[i].total, lost, TotalDamage(all) % U32)
  {
    hide Part;
    OwnDamage(all, i);
  }

  lemma PartBound(damage: nat, lost: nat, total: nat)
    requires total > 0
    ensures var g := Part(damage, lost, total); g * total <= damage * lost < g * total + total
  {
    MulNonNegative(damage, lost);
    DivMod(damage * lost, total);
  }

  lemma Share(all: seq<Block>, i: nat, lost: nat)
    requires OncePerId(all) && i < |all| && TotalDamage(all) % U32 > 0
    ensures var total, g := TotalDamage(all) % U32, Gained(all, all[i].id, lost);
      g * total <= all[i].total * lost < g * total + total
  {
    GainedIs(all, i, lost);
    hide *;
    PartBound(all[i].total, lost, TotalDamage(all) % U32);
  }

  /** s shares of a total, for c points of damage, fall short by less than n. */
  ghost predicate Near(s: nat, c: nat, n: nat, lost: nat, total: nat) {
    s * total <= c * lost <= s * total + n * total && (n > 0 ==> c * lost < s * total + n * total)
  }

  lemma NearNext(s: nat, c: nat, n: nat, lost: nat, total: nat, g: nat, d: nat)
    requires Near(s, c, n, lost, total) && total > 0 && g * total <= d * lost < g * total + total
    ensures Near(s + g, c + d, n + 1, lost, total)
  {
    Distribute(c, d, lost);
    Distribute(s, g, total);
    Distribute(n, 1, total);
  }

  lemma NearSkip(s: nat, c: nat, n: nat, lost: nat, total: nat)
    requires Near(s, c, n, lost, total) && total > 0
    ensures Near(s, c, n + 1, lost, total)
  {
    Distribute(n, 1, total);
  }

  /** Rounding down loses less than one point a share. */
  lemma {:induction false} SharesBound(n: nat, all: seq<Block>, world: World, victim: Id, lost: nat)
    requires OncePerId(all) && n <= |all| && TotalDamage(all) % U32 > 0
    ensures Near(Shares(all[..n], all, world, victim, lost), Counted(all[..n], world, victim), n, lost,
              TotalDamage(all) % U32)
  {
    hide Near, OncePerId, Gained, TotalDamage;
    var total := TotalDamage(all) % U32;
    if n == 0 {
      NearNone(lost, total);
    } else {
      SharesBound(n - 1, all, world, victim, lost);
      assert all[..n][..n - 1] == all[..n - 1] && all[..n][n - 1] == all[n - 1];
      var s, c := Shares(all[..n - 1], all, world, victim, lost), Counted(all[..n - 1], world, victim);
      var b := all[n - 1];
      Share(all, n - 1, lost);
      NearNext(s, c, n - 1, lost, total, Gained(all, b.id, lost), b.total);
      NearSkip(s, c, n - 1, lost, total);
    }
  }

  lemma NearNone(lost: nat, total: nat)
    ensures Near(0, 0, 0, lost, total)
  {
  }

  lemma {:induction false} CountedAtMost(blocks: seq<Block>, world: World, victim: Id)
    ensures Counted(blocks, world, victim) <= TotalDamage(blocks)
    ensures (forall i :: 0 <= i < |blocks| ==> Counts(world, victim, blocks[i])) ==>
      Counted(blocks, world, victim) == TotalDamage(blocks)
  {
    if blocks != [] {
      CountedAtMost(blocks[..|blocks| - 1], world, victim);
    }
  }

  lemma AtMost(s: nat, c: nat, n: nat, lost: nat, total: nat)
    requires Near(s, c, n, lost, total) && c <= total && total > 0
    ensures s <= lost
  {
    if s > lost {
      Less(lost, s, total);
      if c < total {
        Less(c, total, lost);
      }
    }
  }

  lemma MoreThan(s: nat, n: nat, lost: nat, total: nat)
    requires Near(s, total, n, lost, total) && n > 0 && total > 0
    ensures s + n > lost
  {
    Distribute(s, n, total);
    if s + n <= lost {
      if s + n < lost {
        Less(s + n, lost, total);
      }
    }
  }

  /** The attackers never get more than what was lost, whatever that is, exactly when the damage of those that
      count is no more than the 32-bit total, or that total is 0. */
  lemma NeverTooMuch(all: seq<Block>, world: World, victim: Id)
    requires OncePerId(all)
    ensures (forall lost: nat :: HandedOut(all, world, victim, lost) <= lost) <==>
      TotalDamage(all) % U32 == 0 || Counted(all, world, victim) <= TotalDamage(all) % U32
  {
    var total, c := TotalDamage(all) % U32, Counted(all, world, victim);
    if total == 0 || c <= total {
      forall lost: nat ensures HandedOut(all, world, victim, lost) <= lost {
        AtMostLost(all, world, victim, lost);
      }
    } else {
      TooMuch(all, world, victim);
    }
  }

  lemma AtMostLost(all: seq<Block>, world: World, victim: Id, lost: nat)
    requires OncePerId(all)
    requires TotalDamage(all) % U32 == 0 || Counted(all, world, victim) <= TotalDamage(all) % U32
    ensures HandedOut(all, world, victim, lost) <= lost
  {
    RedirectionKeeps(all, all, world, victim, lost);
    if TotalDamage(all) % U32 == 0 {
      NoShares(all, all, world, victim, lost);
    } else {
      SharesBound(|all|, all, world, victim, lost);
      assert all[..|all|] == all;
      hide *;
      AtMost(Shares(all, all, world, victim, lost), Counted(all, world, victim), |all|, lost, TotalDamage(all) % U32);
    }
  }

  lemma {:induction false} NoShares(blocks: seq<Block>, all: seq<Block>, world: World, victim: Id, lost: nat)
    requires TotalDamage(all) % U32 == 0
    ensures Shares(blocks, all, world, victim, lost) == 0
  {
    if blocks != [] {
      NoShares(blocks[..|blocks| - 1], all, world, victim, lost);
    }
  }

  /** When as much is lost as the wrapped total says, every share is the damage itself. */
  lemma TooMuch(all: seq<Block>, world: World, victim: Id)
    requires OncePerId(all) && 0 < TotalDamage(all) % U32 < Counted(all, world, victim)
    ensures var lost := TotalDamage(all) % U32; HandedOut(all, world, victim, lost) > lost
  {
    var total := TotalDamage(all) % U32;
    RedirectionKeeps(all, all, world, victim, total);
    FullShares(|all|, all, world, victim);
    assert all[..|all|] == all;
  }

  lemma {:induction false} FullShares(n: nat, all: seq<Block>, world: World, victim: Id)
    requires OncePerId(all) && n <= |all| && TotalDamage(all) % U32 > 0
    ensures Shares(all[..n], all, world, victim, TotalDamage(all) % U32) == Counted(all[..n], world, victim)
  {
    if n > 0 {
      FullShares(n - 1, all, world, victim);
      assert all[..n][..n - 1] == all[..n - 1] && all[..n][n - 1] == all[n - 1];
      FullShare(all, n - 1);
    }
  }

  lemma FullShare(all: seq<Block>, i: nat)
    requires OncePerId(all) && i < |all| && TotalDamage(all) % U32 > 0
    ensures Gained(all, all[i].id, TotalDamage(all) % U32) == all[i].total
  {
    var total := TotalDamage(all) % U32;
    Share(all, i, total);
    hide *;
    var g, d := Gained(all, all[i].id, total), all[i].total;
    if g < d {
      Less(g, d, total);
    } else if d < g {
      Less(d, g, total);
    }
  }

  /** When the damage fits 32 bits, all attackers are there and none is the victim, rounding costs less than
      one point for each of them. */
  lemma HardlyLess(all: seq<Block>, world: World, victim: Id, lost: nat)
    requires OncePerId(all) && 0 < TotalDamage(all) < U32
    requires forall i :: 0 <= i < |all| ==> Counts(world, victim, all[i])
    ensures lost - |all| < HandedOut(all, world, victim, lost) <= lost
  {
    hide Counts;
    CountedAtMost(all, world, victim);
    AtMostLost(all, world, victim, lost);
    hide *;
    HandedOutNear(all, world, victim, lost);
    MoreThan(HandedOut(all, world, victim, lost), |all|, lost, TotalDamage(all));
  }

  lemma HandedOutNear(all: seq<Block>, world: World, victim: Id, lost: nat)
    requires OncePerId(all) && TotalDamage(all) % U32 > 0
    ensures Near(HandedOut(all, world, victim, lost), Counted(all, world, victim), |all|, lost, TotalDamage(all) % U32)
  {
    hide Near, OncePerId, TotalDamage, Shares, SharedOut;
    RedirectionKeeps(all, all, world, victim, lost);
    SharesBound(|all|, all, world, victim, lost);
    assert all[..|all|] == all;
  }

  /** Three attackers whose damage passes 32 bits: each share is more than what was lost. */
  lemma ThreeAttackers()
    ensures OncePerId(THREE) && forall i :: 0 <= i < |THREE| ==> Counts(THREE_PLAYERS, 0, THREE[i])
    ensures exists lost: nat :: HandedOut(THREE, THREE_PLAYERS, 0, lost) > lost
  {
    var all, world := THREE, THREE_PLAYERS;
    var most: nat := MOST;
    assert all[..2] == [Block(1, most), Block(2, most)] && all[..2][..1] == [Block(1, most)] && [all[0]][..0] == [];
    assert TotalDamage([all[0]]) == most;
    assert TotalDamage(all[..2]) == 2 * most;
    assert TotalDamage(all) == 3 * most;
    CountedAtMost(all, world, 0);
    TooMuch(all, world, 0);
  }

  const MOST: Damage := 0x7FFF_FFFF
  const THREE := [Block(1, MOST), Block(2, MOST), Block(3, MOST)]
  const THREE_PLAYERS :=
    map[1 := Being(true, None, None), 2 := Being(true, None, None), 3 := Being(true, None, None)]

  // --------------------------------------------------------------------
  // The victim
  // --------------------------------------------------------------------

  class Creature {
    const id: Id
    var damageMap: seq<Block>

    constructor (id: Id)
      ensures this.id == id && damageMap == []
    {
      this.id, damageMap := id, [];
    }

    /** Both sums of getDamageRatio. */
    method Damages(attacker: Id) returns (totalDamage: nat, attackerDamage: nat)
      ensures totalDamage == TotalDamage(damageMap) % U32
      ensures attackerDamage == DamageBy(damageMap, attacker) % U32
    {
      totalDamage, attackerDamage := 0, 0;
      for n := 0 to |damageMap|
        invariant totalDamage == TotalDamage(damageMap[..n]) % U32
        invariant attackerDamage == DamageBy(damageMap[..n], attacker) % U32
      {
        assert damageMap[..n + 1][..n] == damageMap[..n];
        AddMod(TotalDamage(damageMap[..n]), damageMap[n].total);
        AddMod(DamageBy(damageMap[..n], attacker), damageMap[n].total);
        totalDamage := (totalDamage + damageMap[n].total) % U32;
        if damageMap[n].id == attacker {
          attackerDamage := (attackerDamage + damageMap[n].total) % U32;
        }
      }
      assert damageMap[..|damageMap|] == damageMap;
    }

    method GetGainedExperience(attacker: Id, lost: nat) returns (gain: nat)
      ensures gain == Gained(damageMap, attacker, lost)
    {
      var totalDamage, attackerDamage := Damages(attacker);
      if totalDamage == 0 {
        return 0;
      }
      gain := Part(attackerDamage, lost, totalDamage);
    }

    /** The loop of onDeath over the damage. */
    method ShareExperience(world: World, lost: nat) returns (experienceMap: map<Id, nat>)
      ensures experienceMap == SharedOut(damageMap, damageMap, world, id, lost)
    {
      experienceMap := map[];
      for n := 0 to |damageMap|
        invariant experienceMap == SharedOut(damageMap[..n], damageMap, world, id, lost)
      {
        assert damageMap[..n + 1][..n] == damageMap[..n];
        var b := damageMap[n];
        if b.id in world && b.id != id {
          var gainExp := GetGainedExperience(b.id, lost);
          var attacker := b.id;
          var attackerMaster := if world[attacker].master.Some? then world[attacker].master.value else attacker;
          if attackerMaster in world && world[attackerMaster].isPlayer && world[attackerMaster].leader.Some? {
            attacker := world[attackerMaster].leader.value;
          }
          var sum := if attacker in experienceMap then experienceMap[attacker] else 0;
          experienceMap := experienceMap[attacker := sum + gainExp];
        }
      }
      assert damageMap[..|damageMap|] == damageMap;
    }
  }
}
