/** Per-sport damage strategies (backend/mechanics.py). Float arithmetic is exact
    `real` arithmetic, `int()` is truncation toward zero, and the football crit draw
    `random.randint(1, 100)` is the parameter `critRoll`. */
module Mechanics {
  import opened Numbers
  import opened Models

  /** What `calculate` returns: the damage as an int, the crit flag and the debuffs
      the attack proposes to put on the boss. */
  datatype DamageCalculationResult = DamageCalculationResult(
    damage: int,
    isCrit: bool,
    appliedDebuffs: Debuffs)

  datatype Strategy = Running | Cycling | Swimming | Football

  /** The dispatch table from sport name to strategy; an unknown sport runs. */
  function GetStrategy(sportType: string): (s: Strategy)
    ensures s == Cycling <==> sportType == "cycle"
    ensures s == Swimming <==> sportType == "swim"
    ensures s == Football <==> sportType == "football"
    ensures s == Running <==> sportType !in {"cycle", "swim", "football"}
  {
    if sportType == "run" then Running
    else if sportType == "cycle" then Cycling
    else if sportType == "swim" then Swimming
    else if sportType == "football" then Football
    else Running
  }

  /** A value `random.randint(1, 100)` can return. */
  type CritRoll = r: int | 1 <= r <= 100 witness 1

  /** What a strategy's `_specific_calculation` returns, before synergy and level. */
  datatype SpecificResult = SpecificResult(damage: real, isCrit: bool, debuffs: Debuffs)

  /** Running: half damage under 30 minutes, otherwise calories times (1 + km / 10). */
  function RunningCalculation(data: WorkoutData, baseDamage: real): SpecificResult
  {
    if data.durationMinutes < 30 then SpecificResult(baseDamage * 0.5, false, map[])
    else SpecificResult(baseDamage * (1.0 + data.distanceKm / 10.0), false, map[])
  }

  /** Cycling: half damage under 30 minutes, otherwise 0.8, and 5% more above 130 bpm. */
  function CyclingCalculation(data: WorkoutData, baseDamage: real): SpecificResult
  {
    if data.durationMinutes < 30 then SpecificResult(baseDamage * 0.5, false, map[])
    else
      var dmg := baseDamage * 0.8;
      // `avg_heart_rate and avg_heart_rate > 130`: zero is falsy and not above 130 anyway
      var dmg' := if data.avgHeartRate != 0 && data.avgHeartRate > 130 then dmg * 1.05 else dmg;
      SpecificResult(dmg', false, map[])
  }

  /** Swimming: calories times 1.2 plus half the distance in metres, and armour break. */
  function SwimmingCalculation(data: WorkoutData, baseDamage: real): SpecificResult
  {
    var meters := data.distanceKm * 1000.0;
    SpecificResult(baseDamage * 1.2 + meters / 2.0, false, map[ArmorBreak := true])
  }

  /** The football crit chance in percent: 50 for a long, intense match, else 10. */
  function CritChance(data: WorkoutData): int
  {
    if data.durationMinutes > 90 && data.avgHeartRate > 140 then 50 else 10
  }

  /** Football: the calories, times 2.5 when the roll falls within the crit chance. */
  function FootballCalculation(data: WorkoutData, baseDamage: real, critRoll: CritRoll): SpecificResult
  {
    if critRoll <= CritChance(data) then SpecificResult(baseDamage * 2.5, true, map[])
    else SpecificResult(baseDamage, false, map[])
  }

  function SpecificCalculation(strategy: Strategy, data: WorkoutData, baseDamage: real, critRoll: CritRoll)
    : SpecificResult
  {
    match strategy
    case Running => RunningCalculation(data, baseDamage)
    case Cycling => CyclingCalculation(data, baseDamage)
    case Swimming => SwimmingCalculation(data, baseDamage)
    case Football => FootballCalculation(data, baseDamage, critRoll)
  }

  /** One percent more damage per player level. */
  function LevelMultiplier(level: int): real
  {
    1.0 + level as real * 0.01
  }

  /** Team synergy: a boss whose armour is broken takes 15% more from every sport but
      swimming. The test reads the submitted sport name, not the chosen strategy. */
  predicate SynergyApplies(data: WorkoutData, raidDebuffs: Debuffs)
  {
    IsSet(raidDebuffs, ArmorBreak) && data.sportType != "swim"
  }

  /** The sport's own damage with the synergy bonus applied. */
  function SynergyDamage(data: WorkoutData, raidDebuffs: Debuffs, critRoll: CritRoll): real
  {
    var specific := SpecificCalculation(GetStrategy(data.sportType), data, data.calories as real, critRoll);
    if SynergyApplies(data, raidDebuffs) then specific.damage * 1.15 else specific.damage
  }

  /** The damage before `int()`: specific damage, then synergy, then the level factor. */
  function RawDamage(data: WorkoutData, userLevel: int, raidDebuffs: Debuffs, critRoll: CritRoll): real
  {
    LevelScaled(SynergyDamage(data, raidDebuffs, critRoll), userLevel)
  }

  function LevelScaled(damage: real, level: int): real
  {
    damage * LevelMultiplier(level)
  }

  /** `BaseWorkoutStrategy.calculate` for the strategy `get_strategy` picks. Only the
      result carries new debuffs; the workout and the raid's debuffs are inputs only. */
  function Calculate(data: WorkoutData, userLevel: int, raidDebuffs: Debuffs, critRoll: CritRoll)
    : (r: DamageCalculationResult)
    ensures r.isCrit ==> GetStrategy(data.sportType) == Football
    ensures r.appliedDebuffs != map[] <==> GetStrategy(data.sportType) == Swimming
  {
    var specific := SpecificCalculation(GetStrategy(data.sportType), data, data.calories as real, critRoll);
    assert GetStrategy(data.sportType) == Swimming ==> ArmorBreak in specific.debuffs;
    DamageCalculationResult(Trunc(RawDamage(data, userLevel, raidDebuffs, critRoll)), specific.isCrit, specific.debuffs)
  }

  // ---------------------------------------------------------------- strategy properties

  /** Only football can crit, and only swimming proposes a debuff, namely armour break. */
  lemma SportEffects(strategy: Strategy, data: WorkoutData, baseDamage: real, critRoll: CritRoll)
    ensures SpecificCalculation(strategy, data, baseDamage, critRoll).isCrit ==> strategy == Football
    ensures SpecificCalculation(strategy, data, baseDamage, critRoll).debuffs
         == if strategy == Swimming then map[ArmorBreak := true] else map[]
  {
  }

  /** A run or ride under 30 minutes deals half its calories, whatever else was submitted. */
  lemma ShortWorkoutPenalty(strategy: Strategy, data: WorkoutData, baseDamage: real, critRoll: CritRoll)
    requires strategy == Running || strategy == Cycling
    requires data.durationMinutes < 30
    ensures SpecificCalculation(strategy, data, baseDamage, critRoll).damage == baseDamage * 0.5
  {
  }

  /** A run of 30 minutes or more deals at least its calories, and more the farther it went. */
  lemma RunDistanceBonus(data: WorkoutData, further: real, baseDamage: real)
    requires data.durationMinutes >= 30 && baseDamage >= 0.0
    requires 0.0 <= data.distanceKm <= further
    ensures baseDamage <= RunningCalculation(data, baseDamage).damage
                      <= RunningCalculation(data.(distanceKm := further), baseDamage).damage
  {
    var m1 := 1.0 + data.distanceKm / 10.0;
    var m2 := 1.0 + further / 10.0;
    assert 1.0 <= m1 <= m2;
    assert baseDamage * 1.0 <= baseDamage * m1 <= baseDamage * m2;
  }

  /** Above 130 bpm a ride of 30 minutes or more deals exactly 5% more than the same ride
      at a lower pulse, on a 0.8 base. */
  lemma CyclingHeartRateBonus(data: WorkoutData, baseDamage: real, calmRate: int)
    requires data.durationMinutes >= 30 && calmRate <= 130
    ensures CyclingCalculation(data.(avgHeartRate := calmRate), baseDamage).damage == baseDamage * 0.8
    ensures data.avgHeartRate > 130 ==>
              CyclingCalculation(data, baseDamage).damage
              == CyclingCalculation(data.(avgHeartRate := calmRate), baseDamage).damage * 1.05
  {
  }

  /** Football crits exactly when the roll is at most the crit chance, which is 50 for a
      match over 90 minutes above 140 bpm and 10 otherwise; a crit deals 2.5 times the calories. */
  lemma FootballCrit(data: WorkoutData, baseDamage: real, critRoll: CritRoll)
    ensures var r := FootballCalculation(data, baseDamage, critRoll);
            && (r.isCrit <==> critRoll <= CritChance(data))
            && (CritChance(data) == 50 <==> data.durationMinutes > 90 && data.avgHeartRate > 140)
            && (CritChance(data) != 50 ==> CritChance(data) == 10)
            && r.damage == (if r.isCrit then baseDamage * 2.5 else baseDamage)
  {
  }

  /** Non-negative workout numbers give non-negative specific damage for every sport. */
  lemma SpecificNonNegative(strategy: Strategy, data: WorkoutData, critRoll: CritRoll)
    requires data.calories >= 0 && data.distanceKm >= 0.0
    ensures SpecificCalculation(strategy, data, data.calories as real, critRoll).damage >= 0.0
  {
    var c := data.calories as real;
    var m := 1.0 + data.distanceKm / 10.0;
    assert c * m >= 0.0;
  }

  // ---------------------------------------------------------------- calculate

  /** The synergy bonus multiplies by exactly 1.15 when it applies and leaves the damage
      alone otherwise, compared with the same attack on a boss without debuffs. */
  lemma SynergyBonus(data: WorkoutData, userLevel: int, raidDebuffs: Debuffs, critRoll: CritRoll)
    ensures SynergyApplies(data, raidDebuffs) ==>
              RawDamage(data, userLevel, raidDebuffs, critRoll)
              == RawDamage(data, userLevel, map[], critRoll) * 1.15
    ensures !SynergyApplies(data, raidDebuffs) ==>
              RawDamage(data, userLevel, raidDebuffs, critRoll) == RawDamage(data, userLevel, map[], critRoll)
    ensures SynergyApplies(data, raidDebuffs) <==> IsSet(raidDebuffs, ArmorBreak) && data.sportType != "swim"
  {
  }

  /** The crit flag and the proposed debuffs depend neither on the player's level nor on
      the boss's debuffs; the debuffs come back only in the result. */
  lemma FlagsIndependentOfState(data: WorkoutData, l1: int, d1: Debuffs, l2: int, d2: Debuffs, critRoll: CritRoll)
    ensures Calculate(data, l1, d1, critRoll).isCrit == Calculate(data, l2, d2, critRoll).isCrit
    ensures Calculate(data, l1, d1, critRoll).appliedDebuffs == Calculate(data, l2, d2, critRoll).appliedDebuffs
  {
  }

  /** Final damage is never negative for non-negative calories, distance and level. */
  lemma CalculateNonNegative(data: WorkoutData, userLevel: int, raidDebuffs: Debuffs, critRoll: CritRoll)
    requires data.calories >= 0 && data.distanceKm >= 0.0 && userLevel >= 0
    ensures Calculate(data, userLevel, raidDebuffs, critRoll).damage >= 0
  {
    SynergyNonNegative(data, raidDebuffs, critRoll);
    NonNegativeProduct(SynergyDamage(data, raidDebuffs, critRoll), LevelMultiplier(userLevel));
    assert RawDamage(data, userLevel, raidDebuffs, critRoll) >= 0.0;
  }

  lemma SynergyNonNegative(data: WorkoutData, raidDebuffs: Debuffs, critRoll: CritRoll)
    requires data.calories >= 0 && data.distanceKm >= 0.0
    ensures SynergyDamage(data, raidDebuffs, critRoll) >= 0.0
  {
    SpecificNonNegative(GetStrategy(data.sportType), data, critRoll);
  }

  /** A higher level never deals less damage with the same workout. */
  lemma CalculateMonotoneInLevel(data: WorkoutData, l1: int, l2: int, raidDebuffs: Debuffs, critRoll: CritRoll)
    requires data.calories >= 0 && data.distanceKm >= 0.0 && 0 <= l1 <= l2
    ensures Calculate(data, l1, raidDebuffs, critRoll).damage <= Calculate(data, l2, raidDebuffs, critRoll).damage
  {
    RawDamageMonotone(data, l1, l2, raidDebuffs, critRoll);
    TruncMonotone(RawDamage(data, l1, raidDebuffs, critRoll), RawDamage(data, l2, raidDebuffs, critRoll));
  }

  lemma RawDamageMonotone(data: WorkoutData, l1: int, l2: int, raidDebuffs: Debuffs, critRoll: CritRoll)
    requires data.calories >= 0 && data.distanceKm >= 0.0 && l1 <= l2
    ensures RawDamage(data, l1, raidDebuffs, critRoll) <= RawDamage(data, l2, raidDebuffs, critRoll)
  {
    SynergyNonNegative(data, raidDebuffs, critRoll);
    LevelScaleMonotone(SynergyDamage(data, raidDebuffs, critRoll), l1, l2);
  }

  lemma LevelScaleMonotone(a: real, l1: int, l2: int)
    requires a >= 0.0 && l1 <= l2
    ensures LevelScaled(a, l1) <= LevelScaled(a, l2)
  {
    var gap := (l2 - l1) as real * 0.01;
    assert gap >= 0.0;
    assert LevelMultiplier(l2) == LevelMultiplier(l1) + gap;
    assert a * LevelMultiplier(l2) == a * LevelMultiplier(l1) + a * gap;
    NonNegativeProduct(a, gap);
  }

  lemma NonNegativeProduct(a: real, b: real)
    requires a >= 0.0 && b >= 0.0
    ensures a * b >= 0.0
  {
  }

  /** A 45-minute, 5 km, 500 kcal run at level 1 on a fresh boss deals
      int(500 * 1.5 * 1.01) = 757; with the armour broken, int(757.5 * 1.15) = 871. */
  lemma RunExample()
    ensures Calculate(WorkoutData(1, "run", 45, 500, 5.0, 120), 1, map[], 1).damage == 757
    ensures Calculate(WorkoutData(1, "run", 45, 500, 5.0, 120), 1, map[ArmorBreak := true], 1).damage == 871
  {
    assert RawDamage(WorkoutData(1, "run", 45, 500, 5.0, 120), 1, map[], 1) == 757.5;
    assert RawDamage(WorkoutData(1, "run", 45, 500, 5.0, 120), 1, map[ArmorBreak := true], 1) == 871.125;
  }
}
