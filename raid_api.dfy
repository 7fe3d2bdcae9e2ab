/** The HTTP handlers of backend/main.py with the database replaced by in-memory state:
    the player count, the shop listing, the purchase transaction and the attack step. */
module RaidApi {
  import opened Numbers
  import opened Models
  import opened BossFactory
  import opened ShopConfig
  import opened RaidLedger
  import opened AttackMessages

  datatype Result<T, E> = Ok(value: T) | Err(error: E)

  // ---------------------------------------------------------------- player count

  /** `get_total_users_count`: the number of registered players, or 1 when there are none. */
  function TotalUsersCount(count: int): (r: int)
    ensures r >= 1
    ensures count >= 1 ==> r == count
    ensures count < 1 ==> r == 1
  {
    if count > 0 then count else 1
  }

  /** The clamp changes nothing about the boss size: `calculate_hp` clamps the same way. */
  lemma TotalUsersCountSizesLikeCount(count: int)
    ensures CalculateHp(TotalUsersCount(count)) == CalculateHp(count)
  {
    CalculateHpExact(count);
    CalculateHpExact(TotalUsersCount(count));
  }

  // ---------------------------------------------------------------- shop listing

  /** One entry of the shop listing. */
  datatype ShopItemRead = ShopItemRead(
    key: string,
    name: string,
    description: string,
    sportType: string,
    currentLevel: int,
    maxLevel: int,
    nextPrice: int,
    isLocked: bool,
    isMaxed: bool)

  /** The listing entry for one upgrade given the player's upgrade levels. */
  function ItemView(u: Upgrade, levels: map<string, int>): ShopItemRead
  {
    var lvl := LevelOf(levels, u.key);
    ShopItemRead(u.key, u.name, u.description, u.sportType, lvl, u.maxLevel,
                 GetPrice(u, lvl), IsLocked(u, levels), lvl >= u.maxLevel)
  }

  /** `get_shop`: one entry per catalogue item, in catalogue order. */
  method GetShop(currentLevels: map<string, int>) returns (response: seq<ShopItemRead>)
    ensures |response| == |ShopItems|
    ensures forall i :: 0 <= i < |ShopItems| ==> response[i] == ItemView(ShopItems[i], currentLevels)
  {
    response := [];
    var i := 0;
    while i < |ShopItems|
      invariant 0 <= i <= |ShopItems|
      invariant |response| == i
      invariant forall k :: 0 <= k < i ==> response[k] == ItemView(ShopItems[k], currentLevels)
    {
      response := response + [ItemView(ShopItems[i], currentLevels)];
      i := i + 1;
    }
  }

  /** Every listing entry is consistent: the level shown is the owned level (0 if never
      bought), the item is shown as maxed exactly when the sentinel price is quoted,
      otherwise at a price between 1 and 2000, and it is shown locked exactly when it is a
      super-upgrade with a prerequisite below level 10. */
  lemma ItemViewConsistent(i: int, levels: map<string, int>)
    requires 0 <= i < |ShopItems|
    requires forall k :: k in levels ==> levels[k] >= 0
    ensures var v := ItemView(ShopItems[i], levels);
            && v.key == ShopItems[i].key
            && v.currentLevel == (if ShopItems[i].key in levels then levels[ShopItems[i].key] else 0)
            && (v.isMaxed <==> v.nextPrice == Sentinel)
            && (!v.isMaxed ==> 0 < v.nextPrice <= 2000)
            && (v.isLocked <==> ShopItems[i].effect.Super?
                                && exists j :: 0 <= j < |ShopItems[i].effect.requiredKeys|
                                               && LevelOf(levels, ShopItems[i].effect.requiredKeys[j]) < RequiredLevel)
  {
    CataloguePriceSentinel(i, LevelOf(levels, ShopItems[i].key));
    IsLockedIff(ShopItems[i], levels);
  }

  // ---------------------------------------------------------------- purchase

  datatype BuyError = UserNotFound | ItemNotFound | MaxLevelReached | NotEnoughGold | ItemLocked

  /** The `{"new_level", "gold_left"}` body of a successful purchase. */
  datatype BuyReceipt = BuyReceipt(newLevel: int, goldLeft: int)

  /** The checks of `buy_item` once the player is known, in the order the handler makes
      them, and the receipt of a purchase that passes them all. */
  function Purchase(gold: int, levels: map<string, int>, key: string): Result<BuyReceipt, BuyError>
  {
    if key !in ShopRegistry then Err(ItemNotFound)
    else
      var item := ShopRegistry[key];
      var current := LevelOf(levels, key);
      if current >= item.maxLevel then Err(MaxLevelReached)
      else
        var price := GetPrice(item, current);
        if gold < price then Err(NotEnoughGold)
        else if IsLocked(item, levels) then Err(ItemLocked)
        else Ok(BuyReceipt(current + 1, gold - price))
  }

  /** Each rejection happens exactly when its check is the first one to fail, and a
      purchase goes through exactly when every check passes. */
  lemma PurchaseRejections(gold: int, levels: map<string, int>, key: string)
    ensures var r := Purchase(gold, levels, key);
            && (r == Err(ItemNotFound) <==> key !in ShopRegistry)
            && (r == Err(MaxLevelReached)
                <==> key in ShopRegistry && LevelOf(levels, key) >= ShopRegistry[key].maxLevel)
            && (r == Err(NotEnoughGold)
                <==> key in ShopRegistry && LevelOf(levels, key) < ShopRegistry[key].maxLevel
                     && gold < GetPrice(ShopRegistry[key], LevelOf(levels, key)))
            && (r == Err(ItemLocked)
                <==> key in ShopRegistry && LevelOf(levels, key) < ShopRegistry[key].maxLevel
                     && gold >= GetPrice(ShopRegistry[key], LevelOf(levels, key))
                     && IsLocked(ShopRegistry[key], levels))
            && (r.Ok?
                <==> key in ShopRegistry && LevelOf(levels, key) < ShopRegistry[key].maxLevel
                     && gold >= GetPrice(ShopRegistry[key], LevelOf(levels, key))
                     && !IsLocked(ShopRegistry[key], levels))
            && r != Err(UserNotFound)
  {
  }

  /** Every registry entry is one of the catalogue items. */
  lemma RegistryItem(key: string) returns (i: int)
    requires key in ShopRegistry
    ensures 0 <= i < |ShopItems| && ShopItems[i].key == key && ShopRegistry[key] == ShopItems[i]
  {
    CatalogueKeysDistinct();
    i :| 0 <= i < |ShopItems| && ShopItems[i].key == key;
    RegistryFindsEveryItem(ShopItems, i);
  }

  /** A successful purchase costs the quoted price of the next level, which is positive
      and never the sentinel, leaves a non-negative balance and raises the level by one. */
  lemma PurchaseDebit(gold: int, levels: map<string, int>, key: string)
    requires forall k :: k in levels ==> levels[k] >= 0
    requires Purchase(gold, levels, key).Ok?
    ensures var r := Purchase(gold, levels, key).value;
            var price := GetPrice(ShopRegistry[key], LevelOf(levels, key));
            && r.newLevel == LevelOf(levels, key) + 1 <= ShopRegistry[key].maxLevel
            && r.goldLeft == gold - price
            && 0 < price < Sentinel
            && 0 <= r.goldLeft < gold
  {
    var i := RegistryItem(key);
    CataloguePriceSentinel(i, LevelOf(levels, key));
  }

  // ---------------------------------------------------------------- attack step

  /** A player row as created on a first attack. */
  function NewUser(): (u: User)
    ensures u.level == 1 && u.xp == 0 && u.gold == 0
  {
    User("Unknown Hero", 1, 0, 0)
  }

  function Min(a: int, b: int): int { if a <= b then a else b }

  /** The toxic regeneration at the start of an attack: half a percent of the maximum,
      truncated, for a boss with the regeneration trait that is still alive. */
  function Regenerate(r: Raid): Raid
  {
    if HasRegen(r.traits) && r.currentHp > 0 then
      r.(currentHp := Min(r.maxHp, r.currentHp + Trunc(r.maxHp as real * 0.005)))
    else r
  }

  /** Regeneration only touches the hit points; it never revives a dead boss, never lowers
      the hit points, never exceeds the maximum, and heals `max_hp / 200` up to the cap. */
  lemma RegenerateSpec(r: Raid)
    requires 0 <= r.currentHp <= r.maxHp
    ensures var s := Regenerate(r);
            && s.(currentHp := r.currentHp) == r
            && r.currentHp <= s.currentHp <= r.maxHp
            && (!HasRegen(r.traits) || r.currentHp == 0 ==> s.currentHp == r.currentHp)
            && (HasRegen(r.traits) && r.currentHp > 0 ==>
                  s.currentHp == Min(r.maxHp, r.currentHp + r.maxHp / 200))
  {
    assert r.maxHp as real * 0.005 == r.maxHp as real / 200.0;
    FloorOfQuotient(r.maxHp, 200);
  }

  /** `max(0, current_hp - damage)`. */
  function DealDamage(hp: int, damage: int): (r: int)
    ensures r >= 0
    ensures r == 0 <==> damage >= hp
    ensures damage >= 0 && hp >= 0 ==> r <= hp
    ensures r > 0 ==> r + damage == hp
  {
    if hp - damage > 0 then hp - damage else 0
  }

  /** `new_debuffs = active.copy(); new_debuffs.update(applied)`. */
  function MergeDebuffs(active: Debuffs, applied: Debuffs): (m: Debuffs)
    ensures m.Keys == active.Keys + applied.Keys
    ensures forall k :: k in applied ==> m[k] == applied[k]
    ensures forall k :: k in active && k !in applied ==> m[k] == active[k]
  {
    active + applied
  }

  /** What the damage strategy reports for the attack. */
  datatype AttackOutcome = AttackOutcome(damage: int, isCrit: bool, isMiss: bool, appliedDebuffs: Debuffs)

  /** The boss after the hit: regeneration, then the damage, then the new debuffs. */
  function HitRaid(r: Raid, o: AttackOutcome): Raid
  {
    var healed := Regenerate(r);
    healed.(currentHp := DealDamage(healed.currentHp, o.damage),
            activeDebuffs := if o.appliedDebuffs != map[] then MergeDebuffs(healed.activeDebuffs, o.appliedDebuffs)
                             else healed.activeDebuffs)
  }

  /** The hit as the handler performs it, one field at a time. */
  method ApplyHit(r: Raid, outcome: AttackOutcome) returns (hit: Raid)
    ensures hit == HitRaid(r, outcome)
  {
    hit := Regenerate(r);
    hit := hit.(currentHp := DealDamage(hit.currentHp, outcome.damage));
    if outcome.appliedDebuffs != map[] {
      hit := hit.(activeDebuffs := MergeDebuffs(hit.activeDebuffs, outcome.appliedDebuffs));
    }
  }

  /** The hit keeps the hit points within `[0, max_hp]` for non-negative damage; it drops
      them to 0 exactly when the damage reaches the regenerated hit points; it keeps every
      earlier debuff and adds the new ones; it changes nothing else. */
  lemma HitRaidSpec(r: Raid, o: AttackOutcome)
    requires 0 <= r.currentHp <= r.maxHp
    ensures var s := HitRaid(r, o);
            && s.(currentHp := r.currentHp, activeDebuffs := r.activeDebuffs) == r
            && 0 <= s.currentHp
            && (o.damage >= 0 ==> s.currentHp <= r.maxHp)
            && (s.currentHp == 0 <==> o.damage >= Regenerate(r).currentHp)
            && s.activeDebuffs.Keys == r.activeDebuffs.Keys + o.appliedDebuffs.Keys
            && (forall k :: k in o.appliedDebuffs ==> s.activeDebuffs[k] == o.appliedDebuffs[k])
            && (forall k :: k in r.activeDebuffs && k !in o.appliedDebuffs ==>
                  s.activeDebuffs[k] == r.activeDebuffs[k])
  {
    RegenerateSpec(r);
  }

  /** Regeneration comes first: a regenerating boss still alive gains its heal even from
      an attack that deals no damage. */
  lemma HealEvenOnMiss(r: Raid, o: AttackOutcome)
    requires 0 < r.currentHp && r.maxHp >= 200 && r.currentHp + r.maxHp / 200 <= r.maxHp
    requires HasRegen(r.traits) && o.damage == 0
    ensures HitRaid(r, o).currentHp == r.currentHp + r.maxHp / 200 > r.currentHp
  {
    RegenerateSpec(r);
  }

  /** 100 XP per attack, 10 for a dodged one. */
  function XpGain(isMiss: bool): (x: int)
    ensures x > 0
    ensures isMiss <==> x == 10
    ensures !isMiss ==> x == 100
  {
    if isMiss then 10 else 100
  }

  /** The XP update: at most one level per attack, and on a level-up the XP is reduced by
      a thousand times the new level. */
  function GainXp(u: User, gain: int): User
  {
    var xp := u.xp + gain;
    if xp >= u.level * 1000 then u.(level := u.level + 1, xp := xp - (u.level + 1) * 1000)
    else u.(xp := xp)
  }

  /** A player levels up exactly when the gained XP reaches a thousand times the old level,
      and then by exactly one level; name and gold are untouched. */
  lemma GainXpSpec(u: User, gain: int)
    ensures var v := GainXp(u, gain);
            && v.username == u.username && v.gold == u.gold
            && (v.level == u.level + 1 <==> u.xp + gain >= u.level * 1000)
            && (v.level == u.level <==> u.xp + gain < u.level * 1000)
            && (v.level == u.level ==> v.xp == u.xp + gain)
            && (v.level == u.level + 1 ==> v.xp + v.level * 1000 == u.xp + gain)
  {
  }

  /** The XP balance can go negative: a level-1 player with 900 XP who lands a hit reaches
      level 2 with -1000 XP. */
  lemma XpCanGoNegative()
    ensures GainXp(User("p", 1, 900, 0), XpGain(false)) == User("p", 2, -1000, 0)
  {
  }

  // ---------------------------------------------------------------- game state

  /** The bosses ever created, oldest first; the active one, if any, is the last. */
  predicate OnlyLastActive(raids: seq<Raid>)
  {
    forall i :: 0 <= i < |raids| - 1 ==> !raids[i].isActive
  }

  predicate LastActive(raids: seq<Raid>)
  {
    |raids| > 0 && raids[|raids| - 1].isActive
  }

  predicate ActiveAlive(raids: seq<Raid>)
  {
    forall i :: 0 <= i < |raids| && raids[i].isActive ==> raids[i].currentHp > 0
  }

  /** Every log row names an existing raid and an existing player. */
  predicate LogRefersTo(log: seq<RaidLog>, raidCount: int, ids: set<int>)
  {
    forall k :: 0 <= k < |log| ==> log[k].raidId < raidCount && log[k].userId in ids
  }

  predicate HpInRange(raids: seq<Raid>)
  {
    forall i :: 0 <= i < |raids| ==> 0 <= raids[i].currentHp <= raids[i].maxHp
  }

  predicate DamageNonNegative(log: seq<RaidLog>)
  {
    forall k :: 0 <= k < |log| ==> log[k].damage >= 0
  }

  predicate GoldNonNegative(users: map<int, User>)
  {
    forall v :: v in users ==> users[v].gold >= 0
  }

  predicate LevelsNonNegative(upgrades: map<int, map<string, int>>)
  {
    forall v, key :: v in upgrades && key in upgrades[v] ==> upgrades[v][key] >= 0
  }

  /** `select(Raid).where(Raid.is_active == True).first()` finds the last raid exactly when
      it is active, and no other raid can be active. */
  lemma ActiveRaidQuery(raids: seq<Raid>)
    requires OnlyLastActive(raids)
    ensures LastActive(raids) <==> exists i :: 0 <= i < |raids| && raids[i].isActive
    ensures forall i :: 0 <= i < |raids| && raids[i].isActive ==> i == |raids| - 1
  {
  }

  /** `{u.upgrade_key: u.level for u in user.upgrades}` for one player. */
  function UpgradeLevels(upgrades: map<int, map<string, int>>, userId: int): (levels: map<string, int>)
    ensures LevelsNonNegative(upgrades) ==> forall k :: k in levels ==> levels[k] >= 0
    ensures userId !in upgrades ==> levels == map[]
  {
    if userId in upgrades then upgrades[userId] else map[]
  }

  /** A purchase keeps gold and upgrade levels non-negative. */
  lemma BuyKeeps(users: map<int, User>, upgrades: map<int, map<string, int>>, userId: int, key: string)
    requires userId in users && GoldNonNegative(users) && LevelsNonNegative(upgrades)
    requires Purchase(users[userId].gold, UpgradeLevels(upgrades, userId), key).Ok?
    ensures var levels := UpgradeLevels(upgrades, userId);
            var r := Purchase(users[userId].gold, levels, key).value;
            && GoldNonNegative(users[userId := users[userId].(gold := r.goldLeft)])
            && LevelsNonNegative(upgrades[userId := levels[key := r.newLevel]])
  {
    PurchaseDebit(users[userId].gold, UpgradeLevels(upgrades, userId), key);
  }

  /** Updating a known player keeps the set of players. */
  lemma BuyKeepsKeys(users: map<int, User>, userId: int, gold: int)
    requires userId in users
    ensures users[userId := users[userId].(gold := gold)].Keys == users.Keys
  {
  }

  /** The random draws of `create_boss`: the type roll and the two name picks. */
  datatype BossDraw = BossDraw(roll: real, prefix: string, noun: string)

  /** A boss for the current player count. */
  function Spawn(players: int, d: BossDraw): (r: Raid)
    ensures r.isActive && r.currentHp == r.maxHp >= MinHp
  {
    CreateBoss(TotalUsersCount(players), d.roll, d.prefix, d.noun)
  }

  /** The player table after the attacker is looked up, with a row created if missing. */
  function Register(users: map<int, User>, userId: int): (r: map<int, User>)
    ensures userId in r && r.Keys == users.Keys + {userId}
    ensures forall v :: v in users ==> r[v] == users[v]
    ensures userId !in users ==> r[userId] == NewUser()
  {
    if userId in users then users else users[userId := NewUser()]
  }

  /** The raid table after the active boss is looked up, with one spawned if none is. */
  function Engage(raids: seq<Raid>, players: int, d: BossDraw): (r: seq<Raid>)
    requires OnlyLastActive(raids)
    ensures OnlyLastActive(r) && LastActive(r)
    ensures LastActive(raids) ==> r == raids
    ensures !LastActive(raids) ==> r == raids + [Spawn(players, d)]
  {
    if LastActive(raids) then raids else raids + [Spawn(players, d)]
  }

  /** The player table after the attacker is registered and has gained the attack's XP. */
  function Attacked(users: map<int, User>, userId: int, isMiss: bool): (r: map<int, User>)
    ensures r.Keys == users.Keys + {userId}
    ensures forall v :: v in users && v != userId ==> r[v] == users[v]
  {
    var registered := Register(users, userId);
    registered[userId := GainXp(registered[userId], XpGain(isMiss))]
  }

  /** The log row an attack appends; no gold is earned per hit. */
  function AttackRow(rid: nat, workout: WorkoutData, outcome: AttackOutcome): (row: RaidLog)
    ensures row.raidId == rid && row.userId == workout.userId && row.damage == outcome.damage
    ensures row.goldEarned == 0 && row.xpEarned == XpGain(outcome.isMiss)
  {
    RaidLog(rid, workout.userId, workout.sportType, outcome.damage, 0, XpGain(outcome.isMiss),
            outcome.isCrit, outcome.isMiss)
  }

  /** The player table after the payout loop: every player's gold grows by what the
      rows naming them pay. */
  function Credit(users: map<int, User>, stats: seq<(int, int)>, pool: int, total: int): (r: map<int, User>)
    requires total != 0
    ensures r.Keys == users.Keys
  {
    map v | v in users :: users[v].(gold := users[v].gold + PayoutIn(stats, v, pool, total))
  }

  /** Paying nobody changes no one. */
  lemma CreditNone(users: map<int, User>, pool: int, total: int)
    requires total != 0
    ensures Credit(users, [], pool, total) == users
  {
  }

  /** One more row credits its player's payout to that player, if the player has a row. */
  lemma CreditStep(users: map<int, User>, stats: seq<(int, int)>, i: int, pool: int, total: int)
    requires total != 0 && 0 <= i < |stats|
    ensures var c := Credit(users, stats[..i], pool, total);
            var v := stats[i].0;
            Credit(users, stats[..i + 1], pool, total)
            == if v in c then c[v := c[v].(gold := c[v].gold + Payout(pool, stats[i].1, total))] else c
  {
    assert stats[..i + 1][..i] == stats[..i];
  }

  /** One more row sets the attacker's gain to that row's payout if the row is the
      attacker's, and leaves it otherwise. */
  lemma GainStep(stats: seq<(int, int)>, i: int, attacker: int, pool: int, total: int)
    requires total != 0 && 0 <= i < |stats| && Distinct(Ids(stats))
    ensures PayoutIn(stats[..i + 1], attacker, pool, total)
         == if stats[i].0 == attacker then Payout(pool, stats[i].1, total)
            else PayoutIn(stats[..i], attacker, pool, total)
  {
    assert stats[..i + 1][..i] == stats[..i];
    if stats[i].0 == attacker {
      DistinctPrefix(stats, i);
      PayoutInDistinct(stats[..i], attacker, pool, total);
    }
  }

  /** With a non-negative pool and non-negative damage, crediting never makes gold negative. */
  lemma CreditGold(users: map<int, User>, stats: seq<(int, int)>, pool: int, total: int)
    requires GoldNonNegative(users) && pool >= 0 && total > 0
    requires forall i :: 0 <= i < |stats| ==> stats[i].1 >= 0
    ensures GoldNonNegative(Credit(users, stats, pool, total))
  {
    forall v | v in users ensures PayoutIn(stats, v, pool, total) >= 0 {
      PayoutInNonNegative(stats, v, pool, total);
    }
  }

  /** The common part of an attack keeps the raid table and the log well formed. */
  lemma StrikeShape(users: map<int, User>, raids: seq<Raid>, log: seq<RaidLog>,
                    workout: WorkoutData, outcome: AttackOutcome, spawn: BossDraw)
    requires OnlyLastActive(raids) && LogRefersTo(log, |raids|, users.Keys)
    ensures var users2 := Attacked(users, workout.userId, outcome.isMiss);
            var raids1 := Engage(raids, |users2|, spawn);
            var rid := |raids1| - 1;
            && workout.userId in users2
            && HitRaid(raids1[rid], outcome).isActive && HitRaid(raids1[rid], outcome).currentHp >= 0
            && LogRefersTo(log + [AttackRow(rid, workout, outcome)], |raids1|, users2.Keys)
  {
    var users2 := Attacked(users, workout.userId, outcome.isMiss);
    var raids1 := Engage(raids, |users2|, spawn);
    var row := AttackRow(|raids1| - 1, workout, outcome);
    assert forall k :: 0 <= k < |log| ==> (log + [row])[k] == log[k];
  }

  /** For non-negative damage the common part of an attack keeps the value bounds. */
  lemma StrikeBounds(users: map<int, User>, raids: seq<Raid>, log: seq<RaidLog>,
                     workout: WorkoutData, outcome: AttackOutcome, spawn: BossDraw)
    requires OnlyLastActive(raids)
    ensures var users2 := Attacked(users, workout.userId, outcome.isMiss);
            var raids1 := Engage(raids, |users2|, spawn);
            var rid := |raids1| - 1;
            HpInRange(raids) && DamageNonNegative(log) && GoldNonNegative(users) && outcome.damage >= 0
            ==> && HpInRange(raids1)
                && 0 <= HitRaid(raids1[rid], outcome).currentHp <= HitRaid(raids1[rid], outcome).maxHp
                && GoldNonNegative(users2)
                && DamageNonNegative(log + [AttackRow(rid, workout, outcome)])
  {
    if !(HpInRange(raids) && DamageNonNegative(log) && GoldNonNegative(users) && outcome.damage >= 0) {
      return;
    }
    var users2 := Attacked(users, workout.userId, outcome.isMiss);
    var raids1 := Engage(raids, |users2|, spawn);
    EngageInRange(raids, |users2|, spawn);
    HitRaidSpec(raids1[|raids1| - 1], outcome);
    AttackedGold(users, workout.userId, outcome.isMiss);
    AppendDamage(log, AttackRow(|raids1| - 1, workout, outcome));
  }

  /** Looking up or spawning the boss keeps hit points in range. */
  lemma EngageInRange(raids: seq<Raid>, players: int, d: BossDraw)
    requires OnlyLastActive(raids) && HpInRange(raids)
    ensures HpInRange(Engage(raids, players, d))
  {
    if !LastActive(raids) {
      var r := raids + [Spawn(players, d)];
      assert forall i :: 0 <= i < |raids| ==> r[i] == raids[i];
    }
  }

  /** Registering the attacker and crediting XP leaves everyone's gold as it was. */
  lemma AttackedGold(users: map<int, User>, userId: int, isMiss: bool)
    requires GoldNonNegative(users)
    ensures GoldNonNegative(Attacked(users, userId, isMiss))
  {
    var r := Register(users, userId);
    assert r[userId].gold >= 0;
  }

  /** A row with non-negative damage keeps all logged damage non-negative. */
  lemma AppendDamage(log: seq<RaidLog>, row: RaidLog)
    requires DamageNonNegative(log) && row.damage >= 0
    ensures DamageNonNegative(log + [row])
  {
    assert forall k :: 0 <= k < |log| ==> (log + [row])[k] == log[k];
  }

  /** A boss that survives the hit stays the one active raid. */
  lemma SurviveKeeps(raids: seq<Raid>, hit: Raid)
    requires |raids| > 0 && OnlyLastActive(raids) && hit.isActive && hit.currentHp > 0
    ensures var r := raids[|raids| - 1 := hit];
            && OnlyLastActive(r) && ActiveAlive(r)
            && (HpInRange(raids) && hit.currentHp <= hit.maxHp ==> HpInRange(r))
  {
  }

  /** A retired boss followed by its successor leaves the successor the one active raid. */
  lemma RetireKeeps(raids: seq<Raid>, dead: Raid, next: Raid)
    requires |raids| > 0 && OnlyLastActive(raids) && !dead.isActive
    requires next.isActive && 0 < next.currentHp <= next.maxHp
    ensures var r := raids[|raids| - 1 := dead] + [next];
            && OnlyLastActive(r) && ActiveAlive(r) && LastActive(r)
            && (HpInRange(raids) && 0 <= dead.currentHp <= dead.maxHp ==> HpInRange(r))
  {
  }

  /** What the end of an attack leaves: the player table, the raid table, the attacker's
      gold gain and whether a reward was paid. */
  datatype Settled = Settled(users: map<int, User>, raids: seq<Raid>, gold: int, paid: bool)

  /** The reward for a dead boss: the player table after the payout, the attacker's gain
      and whether anything was paid. */
  datatype Reward = Reward(users: map<int, User>, gold: int, paid: bool)

  /** The pool of the boss `hit` of raid `rid` is split by logged damage when that total
      is positive; otherwise nobody is paid. */
  function Rewarded(users: map<int, User>, log: seq<RaidLog>, rid: nat, hit: Raid, uid: int): (p: Reward)
    ensures p.users.Keys == users.Keys
    ensures !p.paid ==> p.gold == 0 && p.users == users
  {
    var stats := UserStats(log, rid);
    var total := StatsTotal(stats);
    var pool := CalculateRewardPool(hit.maxHp, hit.traits);
    if total > 0 then Reward(Credit(users, stats, pool, total), PayoutIn(stats, uid, pool, total), true)
    else Reward(users, 0, false)
  }

  /** The raid table after the last boss dies: it is retired and a successor drawn for
      `players` players follows it. */
  function Retired(raids: seq<Raid>, hit: Raid, players: int, successor: BossDraw): (r: seq<Raid>)
    requires |raids| > 0
    ensures |r| == |raids| + 1 && r[..|raids| - 1] == raids[..|raids| - 1]
    ensures r[|raids| - 1] == hit.(isActive := false) && r[|raids|] == Spawn(players, successor)
  {
    raids[|raids| - 1 := hit.(isActive := false)] + [Spawn(players, successor)]
  }

  /** The end of an attack on the last raid, which `hit` replaces: a surviving boss is
      written back; a dead one is retired, rewarded and followed by one successor spawned
      for the current player count. */
  function Settle(users: map<int, User>, raids: seq<Raid>, log: seq<RaidLog>, hit: Raid,
                  uid: int, successor: BossDraw): (s: Settled)
    requires |raids| > 0
  {
    if hit.currentHp > 0 then
      Settled(users, raids[|raids| - 1 := hit], 0, false)
    else
      var p := Rewarded(users, log, |raids| - 1, hit, uid);
      Settled(p.users, Retired(raids, hit, |users|, successor), p.gold, p.paid)
  }

  /** The end of an attack leaves one active raid, the last and alive, and keeps the log's
      references. */
  lemma SettleKeeps(users: map<int, User>, raids: seq<Raid>, log: seq<RaidLog>, hit: Raid,
                    uid: int, successor: BossDraw)
    requires |raids| > 0 && OnlyLastActive(raids)
    requires hit.isActive && hit.currentHp >= 0 && LogRefersTo(log, |raids|, users.Keys)
    ensures var s := Settle(users, raids, log, hit, uid, successor);
            && OnlyLastActive(s.raids) && ActiveAlive(s.raids) && LastActive(s.raids)
            && LogRefersTo(log, |s.raids|, s.users.Keys)
  {
    if hit.currentHp > 0 {
      SurviveKeeps(raids, hit);
    } else {
      var p := Rewarded(users, log, |raids| - 1, hit, uid);
      var r := Retired(raids, hit, |users|, successor);
      assert Settle(users, raids, log, hit, uid, successor) == Settled(p.users, r, p.gold, p.paid);
      RetireKeeps(raids, hit.(isActive := false), Spawn(|users|, successor));
      LogRefersToGrows(log, |raids|, |r|, users.Keys, p.users.Keys);
    }
  }

  /** For in-range hit points, non-negative gold and non-negative logged damage, the end
      of an attack keeps those bounds. */
  lemma SettleBounds(users: map<int, User>, raids: seq<Raid>, log: seq<RaidLog>, hit: Raid,
                     uid: int, successor: BossDraw)
    requires |raids| > 0 && OnlyLastActive(raids) && hit.isActive && hit.currentHp >= 0
    ensures var s := Settle(users, raids, log, hit, uid, successor);
            HpInRange(raids) && hit.currentHp <= hit.maxHp && GoldNonNegative(users) && DamageNonNegative(log)
            ==> HpInRange(s.raids) && GoldNonNegative(s.users)
  {
    if !(HpInRange(raids) && hit.currentHp <= hit.maxHp && GoldNonNegative(users) && DamageNonNegative(log)) {
    } else if hit.currentHp > 0 {
      SurviveKeeps(raids, hit);
    } else {
      var p := Rewarded(users, log, |raids| - 1, hit, uid);
      var r := Retired(raids, hit, |users|, successor);
      assert Settle(users, raids, log, hit, uid, successor) == Settled(p.users, r, p.gold, p.paid);
      RetireKeeps(raids, hit.(isActive := false), Spawn(|users|, successor));
      RewardGold(users, log, |raids| - 1, hit, uid);
    }
  }

  /** More raids and more players keep every log reference valid. */
  lemma LogRefersToGrows(log: seq<RaidLog>, n1: int, n2: int, ids1: set<int>, ids2: set<int>)
    requires LogRefersTo(log, n1, ids1) && n1 <= n2 && ids1 <= ids2
    ensures LogRefersTo(log, n2, ids2)
  {
  }

  /** A paid reward never makes gold negative. */
  lemma RewardGold(users: map<int, User>, log: seq<RaidLog>, rid: nat, hit: Raid, uid: int)
    requires GoldNonNegative(users) && DamageNonNegative(log) && hit.maxHp >= 0
    ensures GoldNonNegative(Rewarded(users, log, rid, hit, uid).users)
  {
    var stats := UserStats(log, rid);
    var total := StatsTotal(stats);
    if total > 0 {
      RewardPoolBounds(hit.maxHp, hit.traits);
      StatsNonNegative(log, rid);
      CreditGold(users, stats, CalculateRewardPool(hit.maxHp, hit.traits), total);
    }
  }

  datatype AttackResult = AttackResult(
    damageDealt: int,
    goldEarned: int,
    xpEarned: int,
    isCritical: bool,
    newBossHp: int,
    message: string)

  /** The game's tables: players by id, each player's upgrade levels, the raids (a raid's
      id is its position) and the append-only attack log. */
  class Game {
    var users: map<int, User>
    var upgrades: map<int, map<string, int>>
    var raids: seq<Raid>
    var log: seq<RaidLog>

    /** At most one raid is active, the latest; an active raid is alive; every log row
        refers to an existing raid and an existing player. */
    predicate Valid()
      reads this
    {
      OnlyLastActive(raids) && ActiveAlive(raids) && LogRefersTo(log, |raids|, users.Keys)
    }

    /** The value bounds: hit points in `[0, max_hp]`, non-negative logged damage, gold and
        upgrade levels. */
    predicate Sane()
      reads this
    {
      HpInRange(raids) && DamageNonNegative(log) && GoldNonNegative(users) && LevelsNonNegative(upgrades)
    }

    constructor ()
      ensures Valid() && Sane()
      ensures users == map[] && upgrades == map[] && raids == [] && log == []
    {
      users := map[];
      upgrades := map[];
      raids := [];
      log := [];
    }

    /** `buy_item`: an unknown player or a failed check changes nothing; a purchase debits
        the price and raises that one upgrade by a level. */
    method BuyItem(userId: int, key: string) returns (r: Result<BuyReceipt, BuyError>)
      requires Valid()
      modifies this
      ensures Valid()
      ensures old(Sane()) ==> Sane()
      ensures userId !in old(users) ==> r == Err(UserNotFound)
      ensures userId in old(users) ==> r == Purchase(old(users)[userId].gold, UpgradeLevels(old(upgrades), userId), key)
      ensures r.Err? ==> users == old(users) && upgrades == old(upgrades)
      ensures r.Ok? ==>
                && users == old(users)[userId := old(users)[userId].(gold := r.value.goldLeft)]
                && upgrades == old(upgrades)[userId := UpgradeLevels(old(upgrades), userId)[key := r.value.newLevel]]
      ensures raids == old(raids) && log == old(log)
    {
      if userId !in users {
        return Err(UserNotFound);
      }
      var user := users[userId];
      var levels := UpgradeLevels(upgrades, userId);
      r := Purchase(user.gold, levels, key);
      if r.Ok? {
        if Sane() {
          BuyKeeps(users, upgrades, userId, key);
        }
        BuyKeepsKeys(users, userId, r.value.goldLeft);
        users := users[userId := user.(gold := r.value.goldLeft)];
        upgrades := upgrades[userId := levels[key := r.value.newLevel]];
      }
    }

    /** The payout loop: every listed player who has a row is credited their share; the
        attacker's share is also returned. */
    method PayContributors(stats: seq<(int, int)>, pool: int, total: int, attacker: int) returns (gain: int)
      requires total != 0 && attacker in users && Distinct(Ids(stats))
      modifies this
      ensures users == Credit(old(users), stats, pool, total)
      ensures gain == PayoutIn(stats, attacker, pool, total)
      ensures raids == old(raids) && log == old(log) && upgrades == old(upgrades)
    {
      var start := users;
      var credited := users;
      gain := 0;
      CreditNone(start, pool, total);
      var i := 0;
      while i < |stats|
        invariant 0 <= i <= |stats|
        invariant credited == Credit(start, stats[..i], pool, total)
        invariant gain == PayoutIn(stats[..i], attacker, pool, total)
        invariant unchanged(this)
      {
        var uid := stats[i].0;
        var payout := Payout(pool, stats[i].1, total);
        CreditStep(start, stats, i, pool, total);
        GainStep(stats, i, attacker, pool, total);
        if uid in credited {
          credited := credited[uid := credited[uid].(gold := credited[uid].gold + payout)];
        }
        if uid == attacker {
          gain := payout;
        }
        i := i + 1;
      }
      assert stats[..|stats|] == stats;
      users := credited;
    }

    /** `process_attack` with the strategy's verdict `outcome` as input: the attacker is
        registered, a boss is spawned if none is active, the boss regenerates and takes
        the hit, the attacker gains XP, the attack is logged, and the raid is settled. */
    method ProcessAttack(workout: WorkoutData, outcome: AttackOutcome, spawn: BossDraw, successor: BossDraw)
      returns (res: AttackResult, ghost users2: map<int, User>, ghost raids1: seq<Raid>, ghost hit: Raid)
      requires Valid()
      modifies this
      ensures Valid()
      ensures old(Sane()) && outcome.damage >= 0 ==> Sane()
      ensures upgrades == old(upgrades)
      ensures users2 == Attacked(old(users), workout.userId, outcome.isMiss)
      ensures raids1 == Engage(old(raids), |users2|, spawn)
      ensures hit == HitRaid(raids1[|raids1| - 1], outcome)
      ensures log == old(log) + [AttackRow(|raids1| - 1, workout, outcome)]
      ensures var s := Settle(users2, raids1, log, hit, workout.userId, successor);
              && users == s.users && raids == s.raids
              && res == AttackResult(outcome.damage, s.gold, XpGain(outcome.isMiss), outcome.isCrit, hit.currentHp,
                                     res.message)
              && res.message == AttackMessage(res.damageDealt, outcome.isMiss, res.isCritical,
                                              ArmorBreak in outcome.appliedDebuffs,
                                              res.newBossHp == 0, s.paid, res.goldEarned)
    {
      var rid, dealt, xpGain := Strike(workout, outcome, spawn);
      users2, raids1, hit := users, raids, dealt;
      res := Finish(rid, dealt, workout, outcome, xpGain, successor);
    }

    /** The end of the attack, once the hit is dealt and logged: the raid is settled and
        the result and message are put together. */
    method Finish(rid: nat, hit: Raid, workout: WorkoutData, outcome: AttackOutcome, xpGain: int,
                  successor: BossDraw) returns (res: AttackResult)
      requires rid == |raids| - 1 && hit.isActive && hit.currentHp >= 0 && workout.userId in users
      requires OnlyLastActive(raids) && LogRefersTo(log, |raids|, users.Keys)
      modifies this
      ensures var s := Settle(old(users), old(raids), log, hit, workout.userId, successor);
              && users == s.users && raids == s.raids
              && res == AttackResult(outcome.damage, s.gold, xpGain, outcome.isCrit, hit.currentHp, res.message)
              && res.message == AttackMessage(res.damageDealt, outcome.isMiss, res.isCritical,
                                              ArmorBreak in outcome.appliedDebuffs,
                                              res.newBossHp == 0, s.paid, res.goldEarned)
      ensures log == old(log) && upgrades == old(upgrades) && Valid()
      ensures old(Sane()) && hit.currentHp <= hit.maxHp ==> Sane()
    {
      ghost var s := Settle(users, raids, log, hit, workout.userId, successor);
      SettleKeeps(users, raids, log, hit, workout.userId, successor);
      SettleBounds(users, raids, log, hit, workout.userId, successor);
      var goldGain, paid := 0, false;
      if hit.currentHp == 0 {
        goldGain, paid := Defeat(hit, workout.userId, successor);
      } else {
        raids := raids[rid := hit];
      }
      assert s == Settled(users, raids, goldGain, paid);
      var msg := Announce(outcome.damage, outcome.isMiss, outcome.isCrit, ArmorBreak in outcome.appliedDebuffs,
                          hit.currentHp == 0, paid, goldGain);
      res := AttackResult(outcome.damage, goldGain, xpGain, outcome.isCrit, hit.currentHp, msg);
    }

    /** The death branch of `Settle`: the payout loop credits the contributors, then the
        last boss is retired and one successor is created. */
    method Defeat(hit: Raid, uid: int, successor: BossDraw) returns (goldGain: int, paid: bool)
      requires |raids| > 0 && uid in users
      modifies this
      ensures Rewarded(old(users), log, |old(raids)| - 1, hit, uid) == Reward(users, goldGain, paid)
      ensures raids == Retired(old(raids), hit, |old(users)|, successor)
      ensures log == old(log) && upgrades == old(upgrades)
    {
      var rid := |raids| - 1;
      var next := Spawn(|users|, successor);
      var stats := UserStats(log, rid);
      var total := StatsTotal(stats);
      goldGain, paid := 0, false;
      if total > 0 {
        IdsOfUserStats(log, rid);
        goldGain := PayContributors(stats, CalculateRewardPool(hit.maxHp, hit.traits), total, uid);
        paid := true;
      }
      raids := raids[rid := hit.(isActive := false)] + [next];
    }

    /** The part of the attack every attack goes through: registration, the boss lookup,
        the hit on a copy of the boss, the XP update and the log row. */
    method Strike(workout: WorkoutData, outcome: AttackOutcome, spawn: BossDraw)
      returns (rid: nat, hit: Raid, xpGain: int)
      requires Valid()
      modifies this
      ensures users == Attacked(old(users), workout.userId, outcome.isMiss)
      ensures raids == Engage(old(raids), |users|, spawn)
      ensures rid == |raids| - 1 && hit == HitRaid(raids[rid], outcome) && xpGain == XpGain(outcome.isMiss)
      ensures log == old(log) + [AttackRow(rid, workout, outcome)]
      ensures upgrades == old(upgrades)
      ensures OnlyLastActive(raids) && LastActive(raids)
      ensures LogRefersTo(log, |raids|, users.Keys)
      ensures workout.userId in users && hit.isActive && hit.currentHp >= 0
      ensures old(Sane()) && outcome.damage >= 0 ==>
                && Sane()
                && 0 <= hit.currentHp <= hit.maxHp
    {
      ghost var users0, raids0, log0 := users, raids, log;
      var uid := workout.userId;
      users := Register(users, uid);
      raids := Engage(raids, |users|, spawn);
      rid := |raids| - 1;
      hit := ApplyHit(raids[rid], outcome);
      xpGain := XpGain(outcome.isMiss);
      users := users[uid := GainXp(users[uid], xpGain)];
      log := log + [AttackRow(rid, workout, outcome)];
      StrikeShape(users0, raids0, log0, workout, outcome, spawn);
      StrikeBounds(users0, raids0, log0, workout, outcome, spawn);
    }
  }
}
