/** The records the game logic reads and writes: the database rows of models.py
    (with the fields main.py actually uses) and the request body of schemas.py. */
module Models {

  datatype BossType = Normal | Armored | Agile | Radioactive | Swarm

  /** A boss's trait dictionary. Each trait is read through `traits.get(key)`,
      whose truth value is false both for a missing key and for a zero value,
      so a zero entry here stands for an absent trait. */
  datatype Traits = Traits(armorReduction: real, evasionChance: real, regenDailyPercent: real)

  const NoTraits := Traits(0.0, 0.0, 0.0)

  predicate HasArmor(t: Traits) { t.armorReduction != 0.0 }
  predicate HasEvasion(t: Traits) { t.evasionChance != 0.0 }
  predicate HasRegen(t: Traits) { t.regenDailyPercent != 0.0 }

  /** A debuff dictionary such as `{"armor_break": True}`. */
  type Debuffs = map<string, bool>

  const ArmorBreak := "armor_break"

  /** The truth value of `debuffs.get(key)`. */
  predicate IsSet(d: Debuffs, key: string) { key in d && d[key] }

  /** A row of the `raids` table; its id is its position in the table. */
  datatype Raid = Raid(
    bossName: string,
    bossType: BossType,
    maxHp: int,
    currentHp: int,
    isActive: bool,
    traits: Traits,
    activeDebuffs: Debuffs)

  /** A row of the `users` table, keyed by the player's id. */
  datatype User = User(username: string, level: int, xp: int, gold: int)

  /** A row of the append-only `raid_logs` table. */
  datatype RaidLog = RaidLog(
    raidId: nat,
    userId: int,
    sportType: string,
    damage: int,
    goldEarned: int,
    xpEarned: int,
    isCritical: bool,
    isMiss: bool)

  /** The workout submitted with an attack. */
  datatype WorkoutData = WorkoutData(
    userId: int,
    sportType: string,
    durationMinutes: int,
    calories: int,
    distanceKm: real,
    avgHeartRate: int)
}
