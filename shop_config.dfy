/** The upgrade shop (backend/shop_config.py): price schedule, prerequisite lock,
    the two effect hooks of each upgrade kind, and the catalogue. */
module ShopConfig {
  import opened Models

  /** The price quoted for an upgrade that is already at its maximum level. */
  const Sentinel := 999999
  const DefaultMaxLevel := 10
  const DefaultBasePrice := 100
  const SuperBasePrice := 2000
  /** The level every prerequisite of a super-upgrade must reach. */
  const RequiredLevel := 10

  /** What an upgrade does, one alternative per upgrade class. */
  datatype Effect =
    | DurationBoost(minutesPerLevel: int)
    | DistanceBoost(kmPerLevel: real)
    | CaloriesBoost(kcalPerLevel: int)
    | Super(requiredKeys: seq<string>)

  datatype Upgrade = Upgrade(
    key: string,
    name: string,
    description: string,
    sportType: string,
    maxLevel: int,
    basePrice: int,
    effect: Effect)

  function DurationUpgrade(key: string, name: string, desc: string, sport: string, minutesPerLevel: int): Upgrade
  {
    Upgrade(key, name, desc, sport, DefaultMaxLevel, DefaultBasePrice, DurationBoost(minutesPerLevel))
  }

  function DistanceUpgrade(key: string, name: string, desc: string, sport: string, kmPerLevel: real): Upgrade
  {
    Upgrade(key, name, desc, sport, DefaultMaxLevel, DefaultBasePrice, DistanceBoost(kmPerLevel))
  }

  function CaloriesUpgrade(key: string, name: string, desc: string, sport: string, kcalPerLevel: int): Upgrade
  {
    Upgrade(key, name, desc, sport, DefaultMaxLevel, DefaultBasePrice, CaloriesBoost(kcalPerLevel))
  }

  /** A double-damage upgrade, bought once, behind a set of prerequisite upgrades. */
  function SuperUpgrade(key: string, name: string, desc: string, sport: string, requiredKeys: seq<string>): Upgrade
  {
    Upgrade(key, name, desc, sport, 1, SuperBasePrice, Super(requiredKeys))
  }

  // ---------------------------------------------------------------- price

  /** The price of the next level: base price times the level being bought, or the
      sentinel once the maximum is reached. */
  function GetPrice(u: Upgrade, currentLevel: int): int
  {
    if currentLevel >= u.maxLevel then Sentinel else u.basePrice * (currentLevel + 1)
  }

  /** Below the maximum each further level costs strictly more. */
  lemma PriceIncreasing(u: Upgrade, l1: int, l2: int)
    requires u.basePrice > 0
    requires 0 <= l1 < l2 < u.maxLevel
    ensures 0 < GetPrice(u, l1) < GetPrice(u, l2)
  {
    assert u.basePrice * (l1 + 1) < u.basePrice * (l2 + 1);
  }

  /** A super-upgrade costs 2000 the first time and is unavailable after that. */
  lemma SuperUpgradePrice(key: string, name: string, desc: string, sport: string, req: seq<string>, level: int)
    requires level >= 0
    ensures SuperUpgrade(key, name, desc, sport, req).maxLevel == 1
    ensures GetPrice(SuperUpgrade(key, name, desc, sport, req), level) == if level == 0 then 2000 else Sentinel
  {
  }

  // ---------------------------------------------------------------- lock

  /** `user_upgrades.get(key, 0)`. */
  function LevelOf(levels: map<string, int>, key: string): int
  {
    if key in levels then levels[key] else 0
  }

  /** The prerequisite loop: true as soon as one required key is below level 10. */
  function SomeBelowRequired(requiredKeys: seq<string>, levels: map<string, int>): bool
  {
    if requiredKeys == [] then false
    else if LevelOf(levels, requiredKeys[0]) < RequiredLevel then true
    else SomeBelowRequired(requiredKeys[1..], levels)
  }

  function IsLocked(u: Upgrade, levels: map<string, int>): bool
  {
    match u.effect
    case Super(requiredKeys) => SomeBelowRequired(requiredKeys, levels)
    case _ => false
  }

  lemma {:induction false} SomeBelowRequiredIff(requiredKeys: seq<string>, levels: map<string, int>)
    ensures SomeBelowRequired(requiredKeys, levels)
        <==> exists i :: 0 <= i < |requiredKeys| && LevelOf(levels, requiredKeys[i]) < RequiredLevel
  {
    if requiredKeys != [] {
      SomeBelowRequiredIff(requiredKeys[1..], levels);
      if LevelOf(levels, requiredKeys[0]) >= RequiredLevel {
        assert forall i :: 1 <= i < |requiredKeys| ==> requiredKeys[i] == requiredKeys[1..][i - 1];
      }
    }
  }

  /** Only a super-upgrade can be locked, and it is locked exactly when some prerequisite
      is below level 10; a prerequisite the player never bought counts as level 0. */
  lemma IsLockedIff(u: Upgrade, levels: map<string, int>)
    ensures IsLocked(u, levels)
        <==> u.effect.Super?
             && exists i :: 0 <= i < |u.effect.requiredKeys|
                            && LevelOf(levels, u.effect.requiredKeys[i]) < RequiredLevel
  {
    if u.effect.Super? {
      SomeBelowRequiredIff(u.effect.requiredKeys, levels);
    }
  }

  // ---------------------------------------------------------------- hooks

  /** The input hook: a boost adds `level * per_level` to its one workout field, and only
      for a workout of the upgrade's own sport. A super-upgrade leaves the input alone. */
  function ModifyInput(u: Upgrade, level: int, data: WorkoutData): WorkoutData
  {
    if data.sportType != u.sportType then data
    else match u.effect
      case DurationBoost(m) => data.(durationMinutes := data.durationMinutes + level * m)
      case DistanceBoost(km) => data.(distanceKm := data.distanceKm + level as real * km)
      case CaloriesBoost(kcal) => data.(calories := data.calories + level * kcal)
      case Super(_) => data
  }

  /** Exactly one field moves, by `level * per_level`, and only on a matching sport; the
      sport, the player and the other fields are never touched. */
  lemma ModifyInputChangesOneField(u: Upgrade, level: int, data: WorkoutData)
    ensures var d := ModifyInput(u, level, data);
            var hit := data.sportType == u.sportType;
            && d.userId == data.userId && d.sportType == data.sportType && d.avgHeartRate == data.avgHeartRate
            && d.durationMinutes - data.durationMinutes
               == (if hit && u.effect.DurationBoost? then level * u.effect.minutesPerLevel else 0)
            && d.distanceKm - data.distanceKm
               == (if hit && u.effect.DistanceBoost? then level as real * u.effect.kmPerLevel else 0.0)
            && d.calories - data.calories
               == (if hit && u.effect.CaloriesBoost? then level * u.effect.kcalPerLevel else 0)
  {
  }

  /** Input boosts are independent: applying two of them in either order gives the same workout. */
  lemma ModifyInputCommutes(u1: Upgrade, l1: int, u2: Upgrade, l2: int, data: WorkoutData)
    ensures ModifyInput(u1, l1, ModifyInput(u2, l2, data)) == ModifyInput(u2, l2, ModifyInput(u1, l1, data))
  {
  }

  /** The damage hook: the identity, except that an owned super-upgrade doubles positive damage. */
  function ModifyDamage(u: Upgrade, level: int, damage: real): real
  {
    match u.effect
    case Super(_) => if level > 0 && damage > 0.0 then damage * 2.0 else damage
    case _ => damage
  }

  /** A super-upgrade doubles exactly when it is owned and the damage is positive; every
      other upgrade leaves the damage alone. The hook is not idempotent: each call doubles again. */
  lemma ModifyDamageEffect(u: Upgrade, level: int, damage: real)
    ensures !u.effect.Super? ==> ModifyDamage(u, level, damage) == damage
    ensures u.effect.Super? ==>
              (ModifyDamage(u, level, damage) == 2.0 * damage <==> (level > 0 && damage > 0.0) || damage == 0.0)
    ensures u.effect.Super? && !(level > 0 && damage > 0.0) ==> ModifyDamage(u, level, damage) == damage
    ensures u.effect.Super? && level > 0 && damage > 0.0 ==>
              ModifyDamage(u, level, ModifyDamage(u, level, damage)) == 4.0 * damage
  {
  }

  // ---------------------------------------------------------------- catalogue

  const ShopItems: seq<Upgrade> := [
    DurationUpgrade("run_watch", "Бегущие часы", "+1 мин/ур к времени", "run", 1),
    DistanceUpgrade("run_roulette", "Накрученная рулетка", "+200м/ур к дистанции", "run", 0.2),
    SuperUpgrade("run_super", "Титановый Кроссовок", "x2 УРОН (Нужно: Часы 10 + Рулетка 10)", "run",
                 ["run_watch", "run_roulette"]),
    DurationUpgrade("cycle_watch", "Вело-компьютер", "+2 мин/ур к времени", "cycle", 2),
    DistanceUpgrade("cycle_odometer", "Сломанный одометр", "+1км/ур к дистанции", "cycle", 1.0),
    SuperUpgrade("cycle_super", "Карбоновая Рама", "x2 УРОН (Нужно: Комп 10 + Одометр 10)", "cycle",
                 ["cycle_watch", "cycle_odometer"]),
    DistanceUpgrade("swim_flippers", "Ласты", "+100м/ур к дистанции", "swim", 0.1),
    SuperUpgrade("swim_super", "Жабры", "x2 УРОН (Нужно: Ласты 10)", "swim", ["swim_flippers"]),
    CaloriesUpgrade("football_energy", "Энергетик", "+100 ккал/ур", "football", 100),
    SuperUpgrade("football_super", "Золотой Мяч", "x2 УРОН (Нужно: Энергетик 10)", "football",
                 ["football_energy"])
  ]

  /** `{item.key: item for item in items}`: a later item with the same key wins. */
  function Registry(items: seq<Upgrade>): (m: map<string, Upgrade>)
    ensures m.Keys == set i | 0 <= i < |items| :: items[i].key
  {
    if items == [] then map[]
    else
      var last := items[|items| - 1];
      var m := Registry(items[..|items| - 1])[last.key := last];
      assert forall i :: 0 <= i < |items| - 1 ==> items[i] == items[..|items| - 1][i];
      m
  }

  const ShopRegistry := Registry(ShopItems)

  predicate DistinctKeys(items: seq<Upgrade>)
  {
    forall i, j :: 0 <= i < j < |items| ==> items[i].key != items[j].key
  }

  /** With distinct keys every item is found under its own key. */
  lemma {:induction false} RegistryFindsEveryItem(items: seq<Upgrade>, i: int)
    requires DistinctKeys(items)
    requires 0 <= i < |items|
    ensures items[i].key in Registry(items) && Registry(items)[items[i].key] == items[i]
  {
    var n := |items| - 1;
    if i < n {
      var prefix := items[..n];
      assert DistinctKeys(prefix);
      assert prefix[i] == items[i];
      RegistryFindsEveryItem(prefix, i);
      assert items[i].key != items[n].key;
    }
  }

  /** With distinct keys the registry has one entry per item. */
  lemma {:induction false} RegistrySize(items: seq<Upgrade>)
    requires DistinctKeys(items)
    ensures |Registry(items)| == |items|
  {
    if items != [] {
      var n := |items| - 1;
      var prefix := items[..n];
      assert DistinctKeys(prefix);
      RegistrySize(prefix);
      assert items[n].key !in Registry(prefix) by {
        forall i | 0 <= i < n ensures prefix[i].key != items[n].key {
          assert prefix[i] == items[i];
        }
      }
    }
  }

  const ShopKeys: seq<string> := [
    "run_watch", "run_roulette", "run_super", "cycle_watch", "cycle_odometer",
    "cycle_super", "swim_flippers", "swim_super", "football_energy", "football_super"]

  /** The catalogue's keys are distinct, so the registry holds all ten items. */
  lemma CatalogueKeysDistinct()
    ensures DistinctKeys(ShopItems)
    ensures |ShopRegistry| == |ShopItems| == 10
  {
    assert forall i :: 0 <= i < 10 ==> ShopItems[i].key == ShopKeys[i];
    assert forall i, j :: 0 <= i < j < 10 ==> ShopKeys[i] != ShopKeys[j];
    RegistrySize(ShopItems);
  }

  /** The catalogue position of the `j`-th prerequisite of the super-upgrade at position `i`. */
  lemma PrerequisiteItem(i: int, j: int) returns (idx: int)
    requires 0 <= i < |ShopItems| && ShopItems[i].effect.Super?
    requires 0 <= j < |ShopItems[i].effect.requiredKeys|
    ensures 0 <= idx < |ShopItems| && ShopItems[idx].key == ShopItems[i].effect.requiredKeys[j]
    ensures ShopItems[idx].sportType == ShopItems[i].sportType
    ensures ShopItems[idx].maxLevel == RequiredLevel && !ShopItems[idx].effect.Super?
  {
    idx := if i == 2 then j else if i == 5 then 3 + j else if i == 7 then 6 else 8;
  }

  /** Every prerequisite of a super-upgrade is an ordinary registry upgrade of the same
      sport whose maximum level is 10, so the lock can always be opened. */
  lemma PrerequisitesExist(i: int, j: int)
    requires 0 <= i < |ShopItems| && ShopItems[i].effect.Super?
    requires 0 <= j < |ShopItems[i].effect.requiredKeys|
    ensures var k := ShopItems[i].effect.requiredKeys[j];
            && k in ShopRegistry
            && ShopRegistry[k].sportType == ShopItems[i].sportType
            && ShopRegistry[k].maxLevel == RequiredLevel
            && !ShopRegistry[k].effect.Super?
  {
    CatalogueKeysDistinct();
    var idx := PrerequisiteItem(i, j);
    RegistryFindsEveryItem(ShopItems, idx);
  }

  /** Conversely, every ordinary catalogue upgrade of a super-upgrade's sport is one of its
      prerequisites: the super-upgrade unlocks only once all the others are maxed. */
  lemma PrerequisitesComplete(i: int, j: int)
    requires 0 <= i < |ShopItems| && ShopItems[i].effect.Super?
    requires 0 <= j < |ShopItems| && !ShopItems[j].effect.Super?
    requires ShopItems[j].sportType == ShopItems[i].sportType
    ensures ShopItems[j].key in ShopItems[i].effect.requiredKeys
  {
  }

  /** A catalogue super-upgrade is unlocked exactly when every ordinary upgrade of its sport
      is at level 10. */
  lemma SuperUnlockedIff(i: int, levels: map<string, int>)
    requires 0 <= i < |ShopItems| && ShopItems[i].effect.Super?
    ensures !IsLocked(ShopItems[i], levels)
        <==> forall j :: 0 <= j < |ShopItems| && !ShopItems[j].effect.Super?
                         && ShopItems[j].sportType == ShopItems[i].sportType
                         ==> LevelOf(levels, ShopItems[j].key) >= RequiredLevel
  {
    var u := ShopItems[i];
    var req := u.effect.requiredKeys;
    IsLockedIff(u, levels);
    if !IsLocked(u, levels) {
      forall j | 0 <= j < |ShopItems| && !ShopItems[j].effect.Super? && ShopItems[j].sportType == u.sportType
        ensures LevelOf(levels, ShopItems[j].key) >= RequiredLevel
      {
        PrerequisitesComplete(i, j);
        var k :| 0 <= k < |req| && req[k] == ShopItems[j].key;
      }
    } else {
      var k :| 0 <= k < |req| && LevelOf(levels, req[k]) < RequiredLevel;
      var idx := PrerequisiteItem(i, k);
      assert !ShopItems[idx].effect.Super? && ShopItems[idx].sportType == u.sportType;
    }
  }

  /** For a catalogue item the sentinel price is quoted exactly at the maximum level. */
  lemma CataloguePriceSentinel(i: int, level: int)
    requires 0 <= i < |ShopItems| && level >= 0
    ensures GetPrice(ShopItems[i], level) == Sentinel <==> level >= ShopItems[i].maxLevel
    ensures level < ShopItems[i].maxLevel ==> 0 < GetPrice(ShopItems[i], level) <= 2000
  {
    var u := ShopItems[i];
    assert u.basePrice == 100 || u.basePrice == 2000;
    assert u.basePrice == 2000 ==> u.maxLevel == 1;
    assert u.basePrice == 100 ==> u.maxLevel == 10;
    if level < u.maxLevel {
      assert u.basePrice * (level + 1) <= 2000;
    }
  }
}
