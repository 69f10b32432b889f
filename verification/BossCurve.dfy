// The loot bonus of boss points, in two straight parts and one under a root,
// the points a bonus needs, and where the one is not the inverse of the other:
// the joints of the parts, the last points before 32 bits are left, and those
// behind them (src/io/io_bosstiary.cpp:213-235).
module BossCurve {
  import opened Arithmetic

  const U32: nat := 0x1_0000_0000

  /** The integer part of a square root. */
  function Root(n: nat): (r: nat)
    ensures r * r <= n < (r + 1) * (r + 1)
  {
    if n == 0 then 0 else
    var r := Root(n - 1);
    if (r + 1) * (r + 1) <= n then r + 1 else r
  }

  /** Halving and adding to 100 before the root is cut off, or after, gives the same integer. */
  function Steep(radicand: nat): nat {
    (191 + Root(radicand)) / 2
  }

  /** calculateLootBonus; the radicand is an unsigned 32-bit number. */
  function LootBonus(points: nat): nat
    requires points < U32
  {
    if points <= 250 then 25 + points / 10
    else if points < 1250 then (37.5 + (points / 20) as real).Floor
    else Steep((8 * ((points - 1250) / 5) + 81) % U32)
  }

  /** calculateBossPoints, before the conversion to 32 bits. */
  function Exactly(bonus: nat): real {
    2.5 * (bonus * bonus) as real - 477.5 * bonus as real + 24000.0
  }

  function BossPoints(bonus: nat): int {
    if bonus <= 25 then 0
    else if bonus <= 50 then 10 * bonus - 250
    else if bonus <= 100 then 20 * bonus - 750
    else Exactly(bonus).Floor
  }

  /** Above 100 the points grow by a triangle: 1250 + 5k(k+9)/2 at 100 + k. */
  function Triangle(k: nat): (t: nat)
    ensures 2 * t == k * (k + 9)
  {
    if k == 0 then 0 else Triangle(k - 1) + k + 4
  }

  lemma PointsOfStep(k: nat)
    ensures BossPoints(100 + k) == 1250 + 5 * Triangle(k)
  {
    var b := 100 + k;
    assert b * b == 10000 + 200 * k + k * k;
    assert 2 * Triangle(k) == k * k + 9 * k;
    if k > 0 {
      assert Exactly(b) == (1250 + 5 * Triangle(k)) as real;
    }
  }

  // --------------------------------------------------------------------
  // Squares
  // --------------------------------------------------------------------

  lemma Square(k: nat)
    ensures 8 * Triangle(k) + 81 == (2 * k + 9) * (2 * k + 9)
  {
    assert (2 * k + 9) * (2 * k + 9) == 4 * (k * (k + 9)) + 81;
  }

  lemma Grows(a: nat, b: nat)
    requires a < b
    ensures a * a < b * b
  {
    Less(a, b, a);
    Less(a, b, b);
  }

  /** How many steps of five points above 1250, and what stands under the root. */
  function Fives(points: nat): nat {
    if points < 1250 then 0 else (points - 1250) / 5
  }

  function Radicand(points: nat): nat {
    8 * Fives(points) + 81
  }

  predicate InRange(points: nat) {
    1250 <= points && Radicand(points) < U32
  }

  lemma BonusAbove(points: nat)
    requires InRange(points)
    ensures points < U32 && LootBonus(points) == (191 + Root(Radicand(points))) / 2
  {
    hide Root;
    InRangeMeans(points);
    hide InRange, Fives;
    assert Radicand(points) % U32 == Radicand(points);
    assert LootBonus(points) == Steep(Radicand(points) % U32);
  }

  lemma InRangeMeans(points: nat)
    requires InRange(points)
    ensures 1250 <= points < U32 && Radicand(points) < U32 && Radicand(points) == 8 * ((points - 1250) / 5) + 81
  {
  }

  /** Reaching a step is a matter of the root. */
  lemma Reached(k: nat, points: nat)
    requires points >= 1250
    ensures BossPoints(100 + k) <= points <==> (2 * k + 9) * (2 * k + 9) <= Radicand(points)
  {
    PointsOfStep(k);
    Square(k);
    hide *;
    FivesReach(Triangle(k), points);
    DefineRadicand(points);
  }

  lemma DefineRadicand(points: nat)
    ensures Radicand(points) == 8 * Fives(points) + 81
  {
  }

  lemma FivesReach(t: nat, points: nat)
    requires points >= 1250
    ensures 1250 + 5 * t <= points <==> t <= Fives(points)
  {
  }

  /** Above 100 every step of the bonus is reached by exactly the points between it and the next. */
  lemma StepHolds(k: nat, points: nat)
    requires InRange(points)
    ensures BossPoints(100 + k) <= points < BossPoints(100 + k + 1) <==> LootBonus(points) == 100 + k
  {
    hide *;
    BonusAbove(points);
    AtLeast1250(points);
    Reached(k, points);
    Reached(k + 1, points);
    RootReach(Radicand(points), 2 * k + 9);
    RootReach(Radicand(points), 2 * k + 11);
  }

  lemma AtLeast1250(points: nat)
    requires InRange(points)
    ensures points >= 1250 && Root(Radicand(points)) >= 9
  {
    RootReach(Radicand(points), 9);
  }

  lemma RootReach(n: nat, low: nat)
    ensures low * low <= n <==> low <= Root(n)
  {
    var r := Root(n);
    hide *;
    if low < r {
      Grows(low, r);
    } else if r + 1 < low {
      Grows(r + 1, low);
    }
  }

  /** The step that some points have reached. */
  lemma StepOf(points: nat) returns (k: nat)
    requires InRange(points)
    ensures BossPoints(100 + k) <= points < BossPoints(100 + k + 1)
    ensures LootBonus(points) == 100 + k
  {
    BonusAbove(points);
    AtLeast1250(points);
    k := (Root(Radicand(points)) - 9) / 2;
    hide *;
    StepHolds(k, points);
  }

  // --------------------------------------------------------------------
  // The two functions together
  // --------------------------------------------------------------------

  /** Points for a bonus give that bonus back, except below 25 and from 51 to 99, where one is missing. */
  lemma BonusOfPoints(bonus: nat)
    requires bonus >= 100 ==> InRange(BossPoints(bonus))
    ensures 0 <= BossPoints(bonus) < U32
    ensures LootBonus(BossPoints(bonus)) ==
      if bonus < 25 then 25 else if 50 < bonus < 100 then bonus - 1 else bonus
  {
    if bonus >= 100 {
      PointsOfStep(bonus - 100);
      PointsOfStep(bonus - 99);
      StepHolds(bonus - 100, BossPoints(bonus));
    }
  }

  /** The points shown for the next bonus are still ahead, except between 251 and 1249, where the second half
      of every twenty points has passed them already. */
  lemma NextIsAhead(points: nat)
    requires points < 1250 || InRange(points)
    ensures BossPoints(LootBonus(points) + 1) > points <==> !(250 < points < 1250 && points % 20 >= 10)
  {
    if points >= 1250 {
      var k := StepOf(points);
    }
  }

  /** More points never mean less bonus, except from 250 to the nine points behind it. */
  lemma NeverLess(p: nat, q: nat)
    requires p <= q && (q < 1250 || InRange(q))
    ensures LootBonus(p) <= LootBonus(q) <==> !(p == 250 && 250 < q < 260)
  {
    if q < 1250 {
      NeverLessBelow(p, q);
    } else {
      hide LootBonus, BossPoints;
      var k := StepOf(q);
      if p < 1250 {
        AtMost100(p);
      } else {
        var j := StepOf(p);
        if k < j {
          StepsGrow(k + 1, j);
        }
      }
    }
  }

  lemma NeverLessBelow(p: nat, q: nat)
    requires p <= q < 1250
    ensures LootBonus(p) <= LootBonus(q) <==> !(p == 250 && 250 < q < 260)
  {
  }

  lemma AtMost100(points: nat)
    requires points < 1250
    ensures LootBonus(points) <= 100
  {
  }

  lemma StepsGrow(j: nat, k: nat)
    requires j <= k
    ensures BossPoints(100 + j) <= BossPoints(100 + k)
  {
    PointsOfStep(j);
    PointsOfStep(k);
    TrianglesGrow(j, k);
  }

  lemma {:induction false} TrianglesGrow(j: nat, k: nat)
    requires j <= k
    ensures Triangle(j) <= Triangle(k)
  {
    if j < k {
      TrianglesGrow(j, k - 1);
    }
  }

  // --------------------------------------------------------------------
  // Where the radicand leaves 32 bits
  // --------------------------------------------------------------------

  const TURN: nat := 0x2000_0000  // steps of five points after which the radicand is back where it was
  const PAST_RANGE: nat := 1250 + 5 * (TURN - 10)

  lemma RangeEnds(points: nat)
    ensures InRange(points) <==> 1250 <= points < PAST_RANGE
  {
  }

  lemma Wrapped(points: nat)
    requires PAST_RANGE <= points < U32
    ensures LootBonus(points) == Steep(Radicand(points) - U32) && 0 < Radicand(points) - U32 < 50765 * 50765
    ensures points < 1250 + 5 * TURN ==> Radicand(points) - U32 < 9 * 9
    ensures points >= 1250 + 5 * TURN ==> Radicand(points) - U32 == Radicand(points - 5 * TURN)
  {
    hide Steep;
  }

  /** From 2684355760 points on the bonus has fallen: to less than 100, and fifty points later to that of as many points
      less as the radicand has turned over. */
  lemma BonusFalls(points: nat)
    requires PAST_RANGE <= points < U32
    ensures LootBonus(points) < LootBonus(PAST_RANGE - 1)
    ensures if points < 1250 + 5 * TURN then LootBonus(points) < 100
            else LootBonus(points) == LootBonus(points - 5 * TURN)
  {
    hide LootBonus, Radicand, Root;
    Wrapped(points);
    RangeEnds(PAST_RANGE - 1);
    BonusAbove(PAST_RANGE - 1);
    LastRadicand();
    RootReach(Radicand(PAST_RANGE - 1), 65535);
    RootReach(Radicand(points) - U32, 50765);
    if points < 1250 + 5 * TURN {
      RootReach(Radicand(points) - U32, 9);
    } else {
      RangeEnds(points - 5 * TURN);
      BonusAbove(points - 5 * TURN);
    }
  }

  lemma LastRadicand()
    ensures Radicand(PAST_RANGE - 1) >= 65535 * 65535
  {
  }
}
