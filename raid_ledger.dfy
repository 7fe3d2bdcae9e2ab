/** The reward split on a boss's death (backend/main.py, the death branch of
    `process_attack`): damage per contributor grouped from the attack log, the total,
    and each contributor's share of the pool. */
module RaidLedger {
  import opened Numbers
  import opened Models

  /** Total damage the log records against one raid. */
  function RaidDamage(log: seq<RaidLog>, raidId: nat): int
  {
    if log == [] then 0
    else
      var e := log[|log| - 1];
      RaidDamage(log[..|log| - 1], raidId) + (if e.raidId == raidId then e.damage else 0)
  }

  /** `sum(RaidLog.damage)` for one player against one raid. */
  function UserDamage(log: seq<RaidLog>, raidId: nat, userId: int): int
  {
    if log == [] then 0
    else
      var e := log[|log| - 1];
      UserDamage(log[..|log| - 1], raidId, userId)
      + (if e.raidId == raidId && e.userId == userId then e.damage else 0)
  }

  predicate Distinct(cs: seq<int>)
  {
    forall i, j :: 0 <= i < j < |cs| ==> cs[i] != cs[j]
  }

  /** The groups of `GROUP BY user_id`: each player who attacked the raid, once, in the
      order of their first logged attack. */
  function Contributors(log: seq<RaidLog>, raidId: nat): (cs: seq<int>)
    ensures Distinct(cs)
    ensures forall u :: u in cs <==> exists k :: 0 <= k < |log| && log[k].raidId == raidId && log[k].userId == u
  {
    if log == [] then []
    else
      var prefix := log[..|log| - 1];
      var e := log[|log| - 1];
      var cs := Contributors(prefix, raidId);
      assert forall k :: 0 <= k < |prefix| ==> prefix[k] == log[k];
      if e.raidId == raidId && e.userId !in cs then cs + [e.userId] else cs
  }

  /** The `(user_id, damage)` rows for the given players. */
  function StatsFor(cs: seq<int>, log: seq<RaidLog>, raidId: nat): (stats: seq<(int, int)>)
    ensures |stats| == |cs|
    ensures forall i :: 0 <= i < |cs| ==> stats[i] == (cs[i], UserDamage(log, raidId, cs[i]))
  {
    if cs == [] then []
    else StatsFor(cs[..|cs| - 1], log, raidId) + [(cs[|cs| - 1], UserDamage(log, raidId, cs[|cs| - 1]))]
  }

  /** The result of the grouped query: one row per contributor with their damage. */
  function UserStats(log: seq<RaidLog>, raidId: nat): seq<(int, int)>
  {
    StatsFor(Contributors(log, raidId), log, raidId)
  }

  /** `sum(dmg for _, dmg in user_stats)`. */
  function StatsTotal(stats: seq<(int, int)>): int
  {
    if stats == [] then 0 else StatsTotal(stats[..|stats| - 1]) + stats[|stats| - 1].1
  }

  /** `int(total_pool * (dmg / total_raid_damage))`. */
  function Payout(pool: int, damage: int, total: int): int
    requires total != 0
  {
    Trunc(pool as real * (damage as real / total as real))
  }

  /** What the payout loop credits to `userId`: the sum over the rows that name them. */
  function PayoutIn(stats: seq<(int, int)>, userId: int, pool: int, total: int): int
    requires total != 0
  {
    if stats == [] then 0
    else
      var row := stats[|stats| - 1];
      PayoutIn(stats[..|stats| - 1], userId, pool, total) + (if row.0 == userId then Payout(pool, row.1, total) else 0)
  }

  /** Everything the payout loop pays out. */
  function SumPayouts(stats: seq<(int, int)>, pool: int, total: int): int
    requires total != 0
  {
    if stats == [] then 0
    else SumPayouts(stats[..|stats| - 1], pool, total) + Payout(pool, stats[|stats| - 1].1, total)
  }

  function Ids(stats: seq<(int, int)>): seq<int>
  {
    seq(|stats|, i requires 0 <= i < |stats| => stats[i].0)
  }

  // ---------------------------------------------------------------- the total

  lemma {:induction false} StatsForZero(cs: seq<int>, raidId: nat)
    ensures StatsTotal(StatsFor(cs, [], raidId)) == 0
  {
    if cs != [] {
      var n := |cs| - 1;
      StatsForZero(cs[..n], raidId);
      assert StatsFor(cs, [], raidId)[..n] == StatsFor(cs[..n], [], raidId);
    }
  }

  /** Appending one log row adds its damage to the total over any distinct set of players
      that contains its author. */
  lemma {:induction false} StatsForAppend(cs: seq<int>, log: seq<RaidLog>, e: RaidLog, raidId: nat)
    requires Distinct(cs)
    ensures StatsTotal(StatsFor(cs, log + [e], raidId))
         == StatsTotal(StatsFor(cs, log, raidId)) + (if e.raidId == raidId && e.userId in cs then e.damage else 0)
  {
    if cs != [] {
      var n := |cs| - 1;
      var front := cs[..n];
      assert Distinct(front);
      StatsForAppend(front, log, e, raidId);
      assert StatsFor(cs, log + [e], raidId)[..n] == StatsFor(front, log + [e], raidId);
      assert StatsFor(cs, log, raidId)[..n] == StatsFor(front, log, raidId);
      assert (log + [e])[..|log|] == log;
      assert e.userId in cs <==> e.userId in front || e.userId == cs[n];
      assert e.userId == cs[n] ==> e.userId !in front;
    }
  }

  /** The grouped total over any distinct list of players covering every contributor is the
      raid's total damage in the log. */
  lemma {:induction false} StatsTotalCovering(cs: seq<int>, log: seq<RaidLog>, raidId: nat)
    requires Distinct(cs)
    requires forall k :: 0 <= k < |log| && log[k].raidId == raidId ==> log[k].userId in cs
    ensures StatsTotal(StatsFor(cs, log, raidId)) == RaidDamage(log, raidId)
  {
    if log == [] {
      StatsForZero(cs, raidId);
    } else {
      var n := |log| - 1;
      var prefix := log[..n];
      assert forall k :: 0 <= k < n ==> prefix[k] == log[k];
      StatsTotalCovering(cs, prefix, raidId);
      assert prefix + [log[n]] == log;
      StatsForAppend(cs, prefix, log[n], raidId);
    }
  }

  /** The total damage the payout divides by is the raid's total damage in the log: the
      grouped query neither loses nor counts twice any row. */
  lemma StatsTotalIsRaidDamage(log: seq<RaidLog>, raidId: nat)
    ensures StatsTotal(UserStats(log, raidId)) == RaidDamage(log, raidId)
  {
    StatsTotalCovering(Contributors(log, raidId), log, raidId);
  }

  // ---------------------------------------------------------------- payouts

  /** Each contributor is paid `int(pool * dmg / total)` for their own damage, once; a
      player who did not attack the raid is paid nothing. */
  lemma {:induction false} PayoutInDistinct(stats: seq<(int, int)>, userId: int, pool: int, total: int)
    requires total != 0
    requires Distinct(Ids(stats))
    ensures userId !in Ids(stats) ==> PayoutIn(stats, userId, pool, total) == 0
    ensures forall i :: 0 <= i < |stats| && stats[i].0 == userId ==>
              PayoutIn(stats, userId, pool, total) == Payout(pool, stats[i].1, total)
  {
    if stats != [] {
      var n := |stats| - 1;
      var front := stats[..n];
      assert Ids(front) == Ids(stats)[..n];
      assert Distinct(Ids(front));
      PayoutInDistinct(front, userId, pool, total);
      assert forall i :: 0 <= i < n ==> front[i] == stats[i];
      if stats[n].0 == userId {
        assert Ids(stats)[n] == userId;
        forall i | 0 <= i < n ensures stats[i].0 != userId && Ids(front)[i] != userId {
          assert Ids(stats)[i] != Ids(stats)[n];
        }
        assert userId !in Ids(front);
      }
    }
  }

  /** The player column of the grouped query lists the contributors, each once. */
  lemma IdsOfUserStats(log: seq<RaidLog>, raidId: nat)
    ensures Ids(UserStats(log, raidId)) == Contributors(log, raidId)
    ensures Distinct(Ids(UserStats(log, raidId)))
  {
  }

  /** In a list of distinct players, no row before row `i` names the player of row `i`. */
  lemma DistinctPrefix(stats: seq<(int, int)>, i: int)
    requires Distinct(Ids(stats)) && 0 <= i < |stats|
    ensures Distinct(Ids(stats[..i]))
    ensures stats[i].0 !in Ids(stats[..i])
  {
    assert Ids(stats[..i]) == Ids(stats)[..i];
    forall k | 0 <= k < i ensures Ids(stats[..i])[k] != stats[i].0 {
      assert Ids(stats)[k] != Ids(stats)[i];
    }
  }

  lemma UserDamageNonNegative(log: seq<RaidLog>, raidId: nat, userId: int)
    requires forall k :: 0 <= k < |log| ==> log[k].damage >= 0
    ensures UserDamage(log, raidId, userId) >= 0
  {
    if log != [] {
      var prefix := log[..|log| - 1];
      assert forall k :: 0 <= k < |prefix| ==> prefix[k] == log[k];
      UserDamageNonNegative(prefix, raidId, userId);
    }
  }

  lemma PayoutNonNegative(pool: int, damage: int, total: int)
    requires pool >= 0 && damage >= 0 && total > 0
    ensures Payout(pool, damage, total) >= 0
  {
    var share := damage as real / total as real;
    assert share >= 0.0;
    assert pool as real * share >= 0.0;
  }

  /** A payout is at most the contributor's exact share of the pool. */
  lemma PayoutAtMostShare(pool: int, damage: int, total: int)
    requires pool >= 0 && damage >= 0 && total > 0
    ensures Payout(pool, damage, total) as real * total as real <= pool as real * damage as real
  {
    var share := damage as real / total as real;
    var x := pool as real * share;
    assert x >= 0.0;
    assert Payout(pool, damage, total) as real <= x;
    assert share * total as real == damage as real;
    assert x * total as real == pool as real * damage as real;
    MulRight(Payout(pool, damage, total) as real, x, total as real);
  }

  lemma MulRight(a: real, b: real, c: real)
    requires a <= b && c >= 0.0
    ensures a * c <= b * c
  {
  }

  lemma {:induction false} SumPayoutsScaled(stats: seq<(int, int)>, pool: int, total: int)
    requires pool >= 0 && total > 0
    requires forall i :: 0 <= i < |stats| ==> stats[i].1 >= 0
    ensures SumPayouts(stats, pool, total) as real * total as real <= pool as real * StatsTotal(stats) as real
  {
    if stats != [] {
      var n := |stats| - 1;
      var front := stats[..n];
      assert forall i :: 0 <= i < n ==> front[i] == stats[i];
      SumPayoutsScaled(front, pool, total);
      PayoutAtMostShare(pool, stats[n].1, total);
      var a := SumPayouts(front, pool, total) as real;
      var b := Payout(pool, stats[n].1, total) as real;
      assert (a + b) * total as real == a * total as real + b * total as real;
      assert pool as real * StatsTotal(stats) as real
          == pool as real * StatsTotal(front) as real + pool as real * stats[n].1 as real;
    }
  }

  lemma StatsNonNegative(log: seq<RaidLog>, raidId: nat)
    requires forall k :: 0 <= k < |log| ==> log[k].damage >= 0
    ensures forall i :: 0 <= i < |UserStats(log, raidId)| ==> UserStats(log, raidId)[i].1 >= 0
  {
    var cs := Contributors(log, raidId);
    forall i | 0 <= i < |cs| ensures UserStats(log, raidId)[i].1 >= 0 {
      UserDamageNonNegative(log, raidId, cs[i]);
    }
  }

  lemma SumPayoutsAtMostPool(stats: seq<(int, int)>, pool: int)
    requires pool >= 0 && StatsTotal(stats) > 0
    requires forall i :: 0 <= i < |stats| ==> stats[i].1 >= 0
    ensures SumPayouts(stats, pool, StatsTotal(stats)) <= pool
  {
    var total := StatsTotal(stats);
    SumPayoutsScaled(stats, pool, total);
    var s := SumPayouts(stats, pool, total) as real;
    if s > pool as real {
      MulStrict(pool as real, s, total as real);
    }
  }

  /** With non-negative logged damage the payouts never exceed the pool, each is
      non-negative, and the rounding remainder is simply not paid. */
  lemma PayoutsWithinPool(log: seq<RaidLog>, raidId: nat, pool: int)
    requires pool >= 0
    requires forall k :: 0 <= k < |log| ==> log[k].damage >= 0
    requires StatsTotal(UserStats(log, raidId)) > 0
    ensures var stats := UserStats(log, raidId);
            var total := StatsTotal(stats);
            && 0 <= SumPayouts(stats, pool, total) <= pool
            && forall u :: PayoutIn(stats, u, pool, total) >= 0
  {
    var stats := UserStats(log, raidId);
    var total := StatsTotal(stats);
    StatsNonNegative(log, raidId);
    SumPayoutsAtMostPool(stats, pool);
    SumPayoutsNonNegative(stats, pool, total);
    forall u ensures PayoutIn(stats, u, pool, total) >= 0 {
      PayoutInNonNegative(stats, u, pool, total);
    }
  }

  lemma MulStrict(a: real, b: real, c: real)
    requires a < b && c > 0.0
    ensures a * c < b * c
  {
  }

  lemma SumPayoutsNonNegative(stats: seq<(int, int)>, pool: int, total: int)
    requires pool >= 0 && total > 0
    requires forall i :: 0 <= i < |stats| ==> stats[i].1 >= 0
    ensures SumPayouts(stats, pool, total) >= 0
  {
    if stats != [] {
      var front := stats[..|stats| - 1];
      assert forall i :: 0 <= i < |front| ==> front[i] == stats[i];
      SumPayoutsNonNegative(front, pool, total);
      PayoutNonNegative(pool, stats[|stats| - 1].1, total);
    }
  }

  lemma PayoutInNonNegative(stats: seq<(int, int)>, userId: int, pool: int, total: int)
    requires pool >= 0 && total > 0
    requires forall i :: 0 <= i < |stats| ==> stats[i].1 >= 0
    ensures PayoutIn(stats, userId, pool, total) >= 0
  {
    if stats != [] {
      var front := stats[..|stats| - 1];
      assert forall i :: 0 <= i < |front| ==> front[i] == stats[i];
      PayoutInNonNegative(front, userId, pool, total);
      PayoutNonNegative(pool, stats[|stats| - 1].1, total);
    }
  }

  /** A pool of 1000 split between players who dealt 6000 and 4000 pays 600 and 400. */
  lemma PayoutExample()
    ensures var log := [RaidLog(0, 1, "run", 6000, 0, 100, false, false),
                        RaidLog(0, 2, "swim", 4000, 0, 100, false, false)];
            var stats := UserStats(log, 0);
            && StatsTotal(stats) == 10000
            && PayoutIn(stats, 1, 1000, 10000) == 600
            && PayoutIn(stats, 2, 1000, 10000) == 400
  {
    var log := [RaidLog(0, 1, "run", 6000, 0, 100, false, false),
                RaidLog(0, 2, "swim", 4000, 0, 100, false, false)];
    assert log[..1][..0] == [];
    assert Contributors(log[..1], 0) == [1];
    assert Contributors(log, 0) == [1, 2];
    assert UserDamage(log, 0, 1) == 6000;
    assert UserDamage(log, 0, 2) == 4000;
    var stats := UserStats(log, 0);
    assert stats == [(1, 6000), (2, 4000)];
    assert stats[..1] == [(1, 6000)];
    assert 1000.0 * (6000.0 / 10000.0) == 600.0;
    assert 1000.0 * (4000.0 / 10000.0) == 400.0;
    TruncOfInt(600);
    TruncOfInt(400);
  }
}
