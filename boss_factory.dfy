/** Generation of a boss from the player population (backend/boss_factory.py).
    The uniform roll and the two name choices of the source are parameters. */
module BossFactory {
  import opened Numbers
  import opened Models

  const Prefixes: seq<string> := ["Titan", "Lord", "Giga", "Ancient", "Cyber"]
  const Names: seq<string> := ["Sloth", "Gluttony", "Entropy", "Static", "Couch Potato"]

  const AvgDamagePerWorkout := 350
  const WorkoutsPerWeek := 3
  const DifficultyMultiplier := 1.2
  const MinHp := 1000

  // ---------------------------------------------------------------- hit points

  /** The player count with anything below one treated as one. */
  function ClampPlayers(activePlayers: int): (p: int)
    ensures p >= 1
    ensures activePlayers >= 1 ==> p == activePlayers
    ensures activePlayers < 1 ==> p == 1
  {
    if activePlayers < 1 then 1 else activePlayers
  }

  /** `max(1000, players * 350 * 3 * 1.2)` truncated to an int. */
  function CalculateHp(activePlayers: int): (hp: int)
    ensures hp >= MinHp
  {
    var players := ClampPlayers(activePlayers);
    var target := (players * AvgDamagePerWorkout * WorkoutsPerWeek) as real * DifficultyMultiplier;
    // Python's max keeps its first argument on a tie.
    Trunc(if MinHp as real >= target then MinHp as real else target)
  }

  /** On an integer count the formula is exactly 1260 hit points per player, and never
      less than 1260: the 1000-point floor cannot take effect once the count is clamped. */
  lemma CalculateHpExact(activePlayers: int)
    ensures CalculateHp(activePlayers) == 1260 * ClampPlayers(activePlayers)
    ensures CalculateHp(activePlayers) >= 1260
  {
    var players := ClampPlayers(activePlayers);
    var target := (players * 1050) as real * 1.2;
    assert target == (1260 * players) as real;
    TruncOfInt(1260 * players);
  }

  /** More players never make a weaker boss. */
  lemma CalculateHpMonotone(p: int, q: int)
    requires p <= q
    ensures CalculateHp(p) <= CalculateHp(q)
  {
    CalculateHpExact(p);
    CalculateHpExact(q);
  }

  // ---------------------------------------------------------------- reward pool

  /** 1.0 plus a bonus for each trait the boss has: +0.3 armour, +0.3 evasion, +0.5 regeneration. */
  function RewardMultiplier(traits: Traits): real
  {
    1.0
    + (if HasArmor(traits) then 0.3 else 0.0)
    + (if HasEvasion(traits) then 0.3 else 0.0)
    + (if HasRegen(traits) then 0.5 else 0.0)
  }

  /** One coin per ten hit points, scaled by the trait multiplier and truncated. */
  function CalculateRewardPool(maxHp: int, traits: Traits): int
  {
    Trunc(maxHp as real / 10.0 * RewardMultiplier(traits))
  }

  function Indicator(b: bool): int { if b then 1 else 0 }

  /** The multiplier in tenths: `10 + 3a + 3e + 5r`, with a, e, r in {0, 1} the presence
      of each trait. */
  function TraitWeight(traits: Traits): (k: int)
    ensures 10 <= k <= 21
  {
    10 + 3 * Indicator(HasArmor(traits)) + 3 * Indicator(HasEvasion(traits)) + 5 * Indicator(HasRegen(traits))
  }

  lemma MultiplierIsWeight(traits: Traits)
    ensures RewardMultiplier(traits) == TraitWeight(traits) as real / 10.0
  {
  }

  lemma TenthOfTenth(m: int, k: int)
    ensures m as real / 10.0 * (k as real / 10.0) == (m * k) as real / 100.0
  {
  }

  /** Over exact rationals the pool is `floor(max_hp * (10 + 3a + 3e + 5r) / 100)`. */
  lemma RewardPoolExact(maxHp: int, traits: Traits)
    requires maxHp >= 0
    ensures CalculateRewardPool(maxHp, traits) == maxHp * TraitWeight(traits) / 100
  {
    var k := TraitWeight(traits);
    MultiplierIsWeight(traits);
    TenthOfTenth(maxHp, k);
    MulMonotone(maxHp, 0, k);
    FloorOfQuotient(maxHp * k, 100);
  }

  lemma FloorOfQuotient(a: int, b: int)
    requires a >= 0 && b > 0
    ensures Trunc(a as real / b as real) == a / b
  {
    var q, r := a / b, a % b;
    assert a == q * b + r && 0 <= r < b;
    assert a as real / b as real == q as real + r as real / b as real;
    assert 0.0 <= r as real / b as real < 1.0;
  }

  /** The pool lies between a tenth of the hit points (no traits) and 21% of them (all traits). */
  lemma RewardPoolBounds(maxHp: int, traits: Traits)
    requires maxHp >= 0
    ensures maxHp / 10 <= CalculateRewardPool(maxHp, traits) <= maxHp * 21 / 100
    ensures traits == NoTraits ==> CalculateRewardPool(maxHp, traits) == maxHp / 10
  {
    RewardPoolExact(maxHp, traits);
    var k := TraitWeight(traits);
    MulMonotone(maxHp, 10, k);
    MulMonotone(maxHp, k, 21);
    MulMonotone(maxHp, 0, 10);
    DivMonotone(maxHp * 10, maxHp * k, 100);
    DivMonotone(maxHp * k, maxHp * 21, 100);
    assert maxHp * 10 / 100 == maxHp / 10;
  }

  lemma DivMonotone(a: int, b: int, d: int)
    requires 0 <= a <= b && d > 0
    ensures a / d <= b / d
  {
    var qa, qb := a / d, b / d;
    assert d * qa <= a && b < d * (qb + 1);
    if qa > qb {
      MulMonotone(d, qb + 1, qa);
      assert false;
    }
  }

  lemma MulMonotone(d: int, x: int, y: int)
    requires d >= 0 && x <= y
    ensures d * x <= d * y
  {
  }

  /** Every trait a boss has that another lacks can only raise its pool. */
  lemma RewardPoolMonotoneInTraits(maxHp: int, t: Traits, u: Traits)
    requires maxHp >= 0
    requires HasArmor(t) ==> HasArmor(u)
    requires HasEvasion(t) ==> HasEvasion(u)
    requires HasRegen(t) ==> HasRegen(u)
    ensures CalculateRewardPool(maxHp, t) <= CalculateRewardPool(maxHp, u)
  {
    RewardPoolExact(maxHp, t);
    RewardPoolExact(maxHp, u);
    MulMonotone(maxHp, 0, TraitWeight(t));
    MulMonotone(maxHp, TraitWeight(t), TraitWeight(u));
    DivMonotone(maxHp * TraitWeight(t), maxHp * TraitWeight(u), 100);
  }

  /** A 10000-point boss without traits pays out a pool of 1000 coins. */
  lemma RewardPoolExample()
    ensures CalculateRewardPool(10000, NoTraits) == 1000
  {
    RewardPoolExact(10000, NoTraits);
  }

  // ---------------------------------------------------------------- the roll

  /** The boss type chosen by a uniform roll in [0, 1). */
  function TypeForRoll(roll: real): BossType
  {
    if roll < 0.40 then Normal
    else if roll < 0.55 then Armored
    else if roll < 0.70 then Agile
    else if roll < 0.85 then Radioactive
    else Swarm
  }

  function TraitsFor(bossType: BossType): Traits
  {
    match bossType
    case Armored => NoTraits.(armorReduction := 0.5)
    case Agile => NoTraits.(evasionChance := 20.0)
    case Radioactive => NoTraits.(regenDailyPercent := 0.05)
    case _ => NoTraits
  }

  function NameSuffix(bossType: BossType): string
  {
    match bossType
    case Normal => ""
    case Armored => "the Ironclad"
    case Agile => "the Phantom"
    case Radioactive => "the Toxic"
    case Swarm => "Swarm"
  }

  /** The type-specific correction applied to the population-based hit points. */
  function AdjustHp(bossType: BossType, hp: int): int
  {
    if bossType == Swarm then Trunc(hp as real * 0.8)
    else if bossType == Armored then Trunc(hp as real * 1.1)
    else hp
  }

  /** The roll bands, each with the one trait (or none) its type carries. */
  lemma RollTable(roll: real)
    ensures roll < 0.40 ==> TypeForRoll(roll) == Normal && TraitsFor(Normal) == NoTraits
    ensures 0.40 <= roll < 0.55 ==>
              TypeForRoll(roll) == Armored && TraitsFor(Armored) == Traits(0.5, 0.0, 0.0)
    ensures 0.55 <= roll < 0.70 ==>
              TypeForRoll(roll) == Agile && TraitsFor(Agile) == Traits(0.0, 20.0, 0.0)
    ensures 0.70 <= roll < 0.85 ==>
              TypeForRoll(roll) == Radioactive && TraitsFor(Radioactive) == Traits(0.0, 0.0, 0.05)
    ensures 0.85 <= roll ==> TypeForRoll(roll) == Swarm && TraitsFor(Swarm) == NoTraits
  {
  }

  /** Each type carries exactly the trait its behaviour is named after. */
  lemma TraitsOfType(bossType: BossType)
    ensures HasArmor(TraitsFor(bossType)) <==> bossType == Armored
    ensures HasEvasion(TraitsFor(bossType)) <==> bossType == Agile
    ensures HasRegen(TraitsFor(bossType)) <==> bossType == Radioactive
  {
  }

  // ---------------------------------------------------------------- the name

  /** The whitespace characters `str.strip()` removes that can occur in a name here. */
  predicate IsSpace(c: char)
  {
    c == ' ' || c == '\t' || c == '\n' || c == '\r' || c == '\U{000B}' || c == '\U{000C}'
  }

  function TrimStart(s: string): (r: string)
    ensures |r| <= |s|
    ensures r == s[|s| - |r|..]
    ensures r == [] || !IsSpace(r[0])
    ensures forall k :: 0 <= k < |s| - |r| ==> IsSpace(s[k])
  {
    if s != [] && IsSpace(s[0]) then TrimStart(s[1..]) else s
  }

  function TrimEnd(s: string): (r: string)
    ensures |r| <= |s|
    ensures r == s[..|r|]
    ensures r == [] || !IsSpace(r[|r| - 1])
    ensures forall k :: |r| <= k < |s| ==> IsSpace(s[k])
  {
    if s != [] && IsSpace(s[|s| - 1]) then TrimEnd(s[..|s| - 1]) else s
  }

  /** Python's `str.strip()`. */
  function Strip(s: string): string
  {
    TrimEnd(TrimStart(s))
  }

  function BossName(prefix: string, noun: string, suffix: string): string
  {
    Strip(prefix + " of " + noun + " " + suffix)
  }

  /** Neither end of the word is whitespace. */
  predicate Trimmed(w: string)
  {
    w != [] && !IsSpace(w[0]) && !IsSpace(w[|w| - 1])
  }

  lemma PrefixesTrimmed(prefix: string)
    requires prefix in Prefixes
    ensures Trimmed(prefix)
  {
  }

  lemma NamesTrimmed(noun: string)
    requires noun in Names
    ensures Trimmed(noun)
  {
  }

  /** The final name is "<prefix> of <noun>" followed by the type's suffix, with the
      separating space dropped when the suffix is empty. */
  lemma BossNameForm(prefix: string, noun: string, bossType: BossType)
    requires prefix in Prefixes && noun in Names
    ensures BossName(prefix, noun, NameSuffix(bossType))
         == prefix + " of " + noun
            + (if bossType == Normal then "" else " " + NameSuffix(bossType))
  {
    PrefixesTrimmed(prefix);
    NamesTrimmed(noun);
    TrimmedNameForm(prefix, noun, bossType);
  }

  lemma TrimmedNameForm(prefix: string, noun: string, bossType: BossType)
    requires Trimmed(prefix) && Trimmed(noun)
    ensures BossName(prefix, noun, NameSuffix(bossType))
         == prefix + " of " + noun
            + (if bossType == Normal then "" else " " + NameSuffix(bossType))
  {
    var suffix := NameSuffix(bossType);
    var s := prefix + " of " + noun + " " + suffix;
    assert prefix[0] == s[0];
    assert TrimStart(s) == s;
    if bossType == Normal {
      var t := prefix + " of " + noun;
      assert s == t + " ";
      assert s[..|s| - 1] == t;
      assert t[|t| - 1] == noun[|noun| - 1];
      assert TrimEnd(t) == t;
    } else {
      assert s[|s| - 1] == suffix[|suffix| - 1];
    }
  }

  // ---------------------------------------------------------------- the boss

  /** A fresh boss: type and traits from the roll, hit points from the population,
      full health, no debuffs, active. `prefix` and `noun` are the two random name picks. */
  function CreateBoss(activePlayers: int, roll: real, prefix: string, noun: string): (r: Raid)
    ensures r.currentHp == r.maxHp >= MinHp
    ensures r.isActive && r.activeDebuffs == map[]
  {
    var bossType := TypeForRoll(roll);
    var hp := AdjustHp(bossType, CalculateHp(activePlayers));
    CalculateHpExact(activePlayers);
    assert hp >= 1008 by { AdjustHpBounds(bossType, CalculateHp(activePlayers)); }
    Raid(BossName(prefix, noun, NameSuffix(bossType)), bossType, hp, hp, true, TraitsFor(bossType), map[])
  }

  lemma AdjustHpBounds(bossType: BossType, hp: int)
    requires hp >= 1260
    ensures AdjustHp(bossType, hp) >= 1008
  {
    if bossType == Swarm {
      TruncMonotone(1260.0 * 0.8, hp as real * 0.8);
      TruncOfInt(1008);
    } else if bossType == Armored {
      TruncMonotone(1260.0 * 1.1, hp as real * 1.1);
      TruncOfInt(1386);
    }
  }

  /** The generated hit points in closed form: 1260 per player, 1386 for an armoured boss,
      1008 for a swarm (the population being clamped to at least one). */
  lemma CreateBossHp(activePlayers: int, roll: real, prefix: string, noun: string)
    ensures var r := CreateBoss(activePlayers, roll, prefix, noun);
            var p := ClampPlayers(activePlayers);
            && r.bossType == TypeForRoll(roll)
            && r.traits == TraitsFor(r.bossType)
            && r.maxHp == (match r.bossType
                           case Swarm => 1008 * p
                           case Armored => 1386 * p
                           case _ => 1260 * p)
  {
    var p := ClampPlayers(activePlayers);
    CalculateHpExact(activePlayers);
    assert (1260 * p) as real * 0.8 == (1008 * p) as real;
    assert (1260 * p) as real * 1.1 == (1386 * p) as real;
    TruncOfInt(1008 * p);
    TruncOfInt(1386 * p);
  }

  /** The random name picks influence only the name: every numeric field, the type,
      the traits and the flags are the same whatever names were drawn. */
  lemma NameDoesNotMatter(activePlayers: int, roll: real, p1: string, n1: string, p2: string, n2: string)
    ensures CreateBoss(activePlayers, roll, p1, n1).(bossName := "")
         == CreateBoss(activePlayers, roll, p2, n2).(bossName := "")
  {
  }
}
