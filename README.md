# Cardio Marathon raid core, modelled in Dafny

Cardio Marathon is a cooperative fitness game. Players submit workouts: runs, rides,
swims and football matches. Each workout becomes an attack on one shared boss. The
backend does four things that this project models:

- It generates bosses sized to the player population (`backend/boss_factory.py`).
- It turns a workout into damage with a per-sport strategy (`backend/mechanics.py`).
- It sells upgrades from a fixed catalogue (`backend/shop_config.py`).
- It runs the HTTP handlers that tie these together (`backend/main.py`): the player count,
  the shop listing, the purchase transaction and the attack step. The attack step
  regenerates the boss, deals the hit, grants XP, logs the attack and, when the boss dies,
  splits its reward pool among the contributors and spawns a successor.

Modules, one per source concern:

- `Numbers` (`numbers.dfy`): Python's `int()` on a float, which truncates toward zero, and
  `str()` of an int.
- `Models` (`models.dfy`): the rows and request body the handlers read and write.
- `BossFactory` (`boss_factory.dfy`): hit points, the reward pool, the type roll and the name.
- `Mechanics` (`mechanics.dfy`): the four damage strategies and `calculate`.
- `ShopConfig` (`shop_config.dfy`): prices, the prerequisite lock, the two effect hooks and
  the catalogue with its registry.
- `RaidLedger` (`raid_ledger.dfy`): the grouped damage query of the death branch and the payout
  arithmetic.
- `AttackMessages` (`attack_messages.dfy`): the text of the attack result.
- `RaidApi` (`raid_api.dfy`): the handlers over in-memory tables. A class `Game` holds the
  tables, which the handlers update in place.

Two modelling choices apply throughout:

- Python floats are exact `real` numbers, and `int()` is `Numbers.Trunc`.
- The sources of randomness are parameters. These are the boss-type roll, the two name
  picks (`BossDraw`) and the football crit roll (`CritRoll`, a value in 1..100).

The database becomes the fields of `RaidApi.Game`:

- `users` is a map from player id to `User`.
- `upgrades` is a map from player id to the player's upgrade levels.
- `raids` is a sequence of `Raid`; a raid's id is its position.
- `log` is the append-only sequence of `RaidLog` rows.

`Game.Valid` is the structural invariant every handler keeps: only the last raid can be
active, an active raid is alive, and every log row names an existing raid and player.
`Game.Sane` holds the value bounds. These are hit points within `[0, max_hp]` and
non-negative logged damage, gold and levels. Every handler keeps `Sane` when the attack
damage is non-negative.

The strategy call in `process_attack` (`backend/main.py:222`) passes five arguments, while
the strategies of `backend/mechanics.py` take three. The handler also reads
`calc_result.is_miss`, which `DamageCalculationResult` does not define. The attack step
therefore takes the strategy's verdict as an input, `RaidApi.AttackOutcome`, which holds
the damage, crit, miss and debuffs. `Mechanics.Calculate` models the strategies on their
own.

Where the source's own comments and its code differ, the model follows the code:

- The docstring of `calculate_hp` (`backend/boss_factory.py:17`) promises at least 5000 hit
  points. The code floors at 1000 (`backend/boss_factory.py:27`), and one player gives 1260
  (`BossFactory.CalculateHpExact`).
- The comment on the armoured type (`backend/boss_factory.py:62`) says its armour halves the
  damage. The damage code (`backend/mechanics.py:20-96`, `backend/main.py:216-231`) never reads
  `armor_reduction`, and `evasion_chance` (`backend/boss_factory.py:67`) is never read either.
  Both traits only raise the reward pool (`backend/boss_factory.py:39-45`).
- The comment on the radioactive type (`backend/boss_factory.py:72`) speaks of 5% regeneration a
  day. The attack handler heals 0.5% of the maximum on every attack
  (`backend/main.py:216-218`, `RaidApi.RegenerateSpec`).
- The docstring of the super-upgrade (`backend/shop_config.py:63`) makes it available once all
  other upgrades of its sport are maxed. The code checks the listed `required_keys`
  (`backend/shop_config.py:68-73`); for the catalogue these are exactly the other upgrades of
  the sport (`ShopConfig.SuperUnlockedIff`). Its damage hook (`backend/shop_config.py:75-78`)
  doubles again on every call.
- The upgrade hooks are defined but never invoked by the handlers of `backend/main.py`.
- Two pieces of code disagree about the raid row: `create_boss` sets `boss_type` and `traits`
  (`backend/boss_factory.py:95-102`), and the handler reads `raid.traits`
  (`backend/main.py:216`), while the `Raid` table (`backend/models.py:23-35`) declares neither
  column. The model keeps both as fields of `Raid`.

## Model

| member | source | states |
|---|---|---|
| Numbers.Trunc | backend/mechanics.py:8 | `int()` of a float rounds toward zero: the result lies within one of the argument, on the same side of zero |
| Numbers.TruncMonotone | backend/mechanics.py:8 | truncation is monotone |
| Numbers.TruncOfInt | backend/boss_factory.py:27 | truncating an integer-valued float gives that integer |
| Numbers.NatToString | backend/main.py:255 | decimal text: at least one digit, only digits, no leading zero |
| Numbers.IntToString | backend/main.py:255 | `str()` of an int: digits, with a minus only in front and exactly for a negative number; the digits read back as the absolute value |
| Numbers.ParseNatToString | backend/main.py:255 | the printed digits read back as the number |
| BossFactory.ClampPlayers | backend/boss_factory.py:19-20 | a count below one becomes one; any other count is kept |
| BossFactory.CalculateHp | backend/boss_factory.py:14-27 | a boss never has fewer than 1000 hit points |
| BossFactory.CalculateHpExact | backend/boss_factory.py:22-27 | the formula is exactly 1260 hit points per clamped player, so at least 1260 |
| BossFactory.CalculateHpMonotone | backend/boss_factory.py:14-27 | more players never give a weaker boss |
| BossFactory.TraitWeight | backend/boss_factory.py:37-45 | the trait multiplier in tenths lies between 10 and 21 |
| BossFactory.RewardMultiplier | backend/boss_factory.py:37-45 | the multiplier: 1.0 plus 0.3, 0.3 and 0.5 for each trait present; its value is stated by `MultiplierIsWeight` |
| BossFactory.MultiplierIsWeight | backend/boss_factory.py:37-45 | the multiplier is 1.0 plus 0.3, 0.3 and 0.5 for armour, evasion and regeneration |
| BossFactory.CalculateRewardPool | backend/boss_factory.py:30-47 | `calculate_reward_pool`: a tenth of the hit points times the multiplier, truncated; `RewardPoolExact` and `RewardPoolBounds` state its value |
| BossFactory.RewardPoolExact | backend/boss_factory.py:30-47 | the pool is `floor(max_hp * (10 + 3a + 3e + 5r) / 100)` |
| BossFactory.RewardPoolBounds | backend/boss_factory.py:30-47 | the pool is between a tenth and 21% of the hit points, and exactly a tenth without traits |
| BossFactory.RewardPoolMonotoneInTraits | backend/boss_factory.py:39-45 | each added trait can only raise the pool |
| BossFactory.RewardPoolExample | backend/boss_factory.py:36-47 | a 10000-point boss without traits has a pool of 1000 |
| BossFactory.TypeForRoll | backend/boss_factory.py:58-80 | the type for a roll in `[0, 1)`, band by band; stated by `RollTable` |
| BossFactory.TraitsFor | backend/boss_factory.py:58-80 | the traits dictionary of each type; stated by `TraitsOfType` |
| BossFactory.NameSuffix | backend/boss_factory.py:56-80 | the name suffix of each type, empty for a normal boss; used by `BossNameForm` |
| BossFactory.AdjustHp | backend/boss_factory.py:89-93 | 80% of the hit points for a swarm and 110% for an armoured boss, truncated; bounded by `AdjustHpBounds` |
| BossFactory.RollTable | backend/boss_factory.py:52-80 | the five roll bands, with the traits each type carries |
| BossFactory.TraitsOfType | backend/boss_factory.py:58-80 | each type carries exactly the trait named after its behaviour |
| BossFactory.TrimStart | backend/boss_factory.py:84 | the result is a suffix of the input that does not start with whitespace, and everything removed is whitespace |
| BossFactory.TrimEnd | backend/boss_factory.py:84 | the result is a prefix of the input that does not end with whitespace, and everything removed is whitespace |
| BossFactory.Strip | backend/boss_factory.py:84 | `str.strip()` as the end trim of the start trim; the two trims' contracts say what is removed |
| BossFactory.BossName | backend/boss_factory.py:83-84 | the stripped "prefix of noun suffix"; its shape is stated by `TrimmedNameForm` and `BossNameForm` |
| BossFactory.PrefixesTrimmed | backend/boss_factory.py:10 | no prefix starts or ends with whitespace |
| BossFactory.NamesTrimmed | backend/boss_factory.py:11 | no noun starts or ends with whitespace |
| BossFactory.TrimmedNameForm | backend/boss_factory.py:83-84 | for words without outer whitespace, the stripped name is "prefix of noun", plus " suffix" unless the type is normal |
| BossFactory.BossNameForm | backend/boss_factory.py:83-84 | the same for the two name lists: the trailing space of a normal boss's name is stripped |
| BossFactory.CreateBoss | backend/boss_factory.py:50-102 | a new boss is active, at full health, with at least 1000 hit points and no debuffs |
| BossFactory.AdjustHpBounds | backend/boss_factory.py:90-93 | the swarm and armoured corrections keep a 1260-point boss at 1008 points or more |
| BossFactory.CreateBossHp | backend/boss_factory.py:86-93 | the hit points in closed form: 1260, 1386 or 1008 per player by type; the type and traits come from the roll |
| BossFactory.NameDoesNotMatter | backend/boss_factory.py:83-102 | the name picks change only the name |
| Mechanics.GetStrategy | backend/mechanics.py:99-106 | each known sport gets its own strategy; any other sport runs |
| Mechanics.Calculate | backend/mechanics.py:20-37 | only football crits; the result proposes debuffs exactly for swimming |
| Mechanics.SportEffects | backend/mechanics.py:45-96 | only football crits; only swimming proposes a debuff, namely armour break |
| Mechanics.RunningCalculation | backend/mechanics.py:45-53 | the running strategy; stated by `ShortWorkoutPenalty` and `RunDistanceBonus` |
| Mechanics.CyclingCalculation | backend/mechanics.py:55-68 | the cycling strategy; stated by `ShortWorkoutPenalty` and `CyclingHeartRateBonus` |
| Mechanics.SwimmingCalculation | backend/mechanics.py:70-79 | the swimming strategy: 1.2 times the calories plus half the metres, proposing armour break; its flags are stated by `SportEffects` |
| Mechanics.CritChance | backend/mechanics.py:88-90 | 50 after more than 90 minutes above 140 bpm, else 10; used by `FootballCrit` |
| Mechanics.FootballCalculation | backend/mechanics.py:81-96 | the football strategy with the crit roll as a parameter; stated by `FootballCrit` |
| Mechanics.SpecificCalculation | backend/mechanics.py:39-96 | the strategy's own step, chosen by the strategy; stated by `SpecificNonNegative` and `SportEffects` |
| Mechanics.ShortWorkoutPenalty | backend/mechanics.py:48-59 | a run or ride under 30 minutes deals half its calories |
| Mechanics.RunDistanceBonus | backend/mechanics.py:47-53 | a long enough run deals at least its calories, and more the farther it went |
| Mechanics.CyclingHeartRateBonus | backend/mechanics.py:57-68 | a ride of 30 minutes or more deals 0.8 of its calories, and 5% more above 130 bpm |
| Mechanics.FootballCrit | backend/mechanics.py:83-96 | a crit happens exactly when the roll is within the chance; the chance is 50 or 10; a crit deals 2.5 times |
| Mechanics.SpecificNonNegative | backend/mechanics.py:45-96 | non-negative calories and distance give non-negative damage for every sport |
| Mechanics.SynergyBonus | backend/mechanics.py:30-33 | broken armour adds exactly 15% for every submitted sport but "swim", and nothing otherwise |
| Mechanics.SynergyApplies | backend/mechanics.py:32 | broken armour on the boss and a sport other than "swim"; used by `SynergyBonus` |
| Mechanics.SynergyDamage | backend/mechanics.py:28-33 | the strategy's damage with the synergy bonus; stated by `SynergyBonus` and `SynergyNonNegative` |
| Mechanics.LevelMultiplier | backend/mechanics.py:25 | `1 + level * 0.01`; its monotonicity is `LevelScaleMonotone` |
| Mechanics.RawDamage | backend/mechanics.py:22-35 | the damage before `int()`; stated by `RawDamageMonotone` |
| Mechanics.SynergyNonNegative | backend/mechanics.py:28-33 | the damage with synergy stays non-negative |
| Mechanics.FlagsIndependentOfState | backend/mechanics.py:20-37 | the crit flag and the proposed debuffs depend neither on the level nor on the boss's debuffs |
| Mechanics.CalculateNonNegative | backend/mechanics.py:20-37 | the final damage is non-negative for non-negative inputs and level |
| Mechanics.CalculateMonotoneInLevel | backend/mechanics.py:24-37 | a higher level never deals less damage |
| Mechanics.RawDamageMonotone | backend/mechanics.py:25-35 | the damage before `int()` grows with the level |
| Mechanics.LevelScaleMonotone | backend/mechanics.py:25-35 | the level factor is monotone on non-negative damage |
| Mechanics.RunExample | backend/mechanics.py:20-53 | a 45-minute 5 km 500 kcal run deals 757, and 871 with armour broken |
| ShopConfig.PriceIncreasing | backend/shop_config.py:16-20 | below the maximum, each further level costs strictly more |
| ShopConfig.GetPrice | backend/shop_config.py:16-20 | `get_price`; stated by `PriceIncreasing`, `SuperUpgradePrice` and `CataloguePriceSentinel` |
| ShopConfig.SuperUpgradePrice | backend/shop_config.py:62-66 | a super-upgrade has one level and costs 2000, then the sentinel price |
| ShopConfig.SomeBelowRequiredIff | backend/shop_config.py:68-73 | the prerequisite loop returns true exactly when some prerequisite is below level 10 |
| ShopConfig.SomeBelowRequired | backend/shop_config.py:68-73 | the prerequisite loop; stated by `SomeBelowRequiredIff` |
| ShopConfig.IsLocked | backend/shop_config.py:22-73 | `is_locked` of the base class and of the super-upgrade; stated by `IsLockedIff` |
| ShopConfig.IsLockedIff | backend/shop_config.py:22-73 | only a super-upgrade is ever locked, exactly when a prerequisite is below 10; an unbought one counts as 0 |
| ShopConfig.ModifyInputChangesOneField | backend/shop_config.py:40-60 | an input hook moves one field by `level * per_level`, and only for its own sport |
| ShopConfig.ModifyInputCommutes | backend/shop_config.py:40-60 | two input hooks give the same workout in either order |
| ShopConfig.ModifyInput | backend/shop_config.py:25-60 | the input hook of each upgrade kind; stated by `ModifyInputChangesOneField` and `ModifyInputCommutes` |
| ShopConfig.ModifyDamage | backend/shop_config.py:29-78 | the damage hook; stated by `ModifyDamageEffect` |
| ShopConfig.ModifyDamageEffect | backend/shop_config.py:75-78 | the super hook doubles exactly owned positive damage, and doubles again on a second call |
| ShopConfig.Registry | backend/shop_config.py:102 | the registry's keys are the items' keys |
| ShopConfig.RegistryFindsEveryItem | backend/shop_config.py:102 | with distinct keys, every item is found under its key |
| ShopConfig.RegistrySize | backend/shop_config.py:102 | with distinct keys, the registry has one entry per item |
| ShopConfig.CatalogueKeysDistinct | backend/shop_config.py:82-102 | the ten catalogue keys are distinct, so the registry holds all ten |
| ShopConfig.PrerequisiteItem | backend/shop_config.py:82-100 | every prerequisite key is a catalogue item of the same sport with maximum level 10 |
| ShopConfig.PrerequisitesExist | backend/shop_config.py:82-102 | every prerequisite is an ordinary registry upgrade that can reach level 10, so each lock can open |
| ShopConfig.PrerequisitesComplete | backend/shop_config.py:63-100 | every ordinary catalogue upgrade of a super-upgrade's sport is one of its prerequisites |
| ShopConfig.SuperUnlockedIff | backend/shop_config.py:63-100 | a catalogue super-upgrade is unlocked exactly when every ordinary upgrade of its sport is at level 10 |
| ShopConfig.CataloguePriceSentinel | backend/shop_config.py:16-20 | a catalogue item is quoted the sentinel exactly at its maximum, and otherwise at 1 to 2000 |
| RaidLedger.Contributors | backend/main.py:265-270 | the grouped query's players: each attacker of the raid once |
| RaidLedger.StatsFor | backend/main.py:265-270 | one row per player, holding that player's summed damage |
| RaidLedger.UserStats | backend/main.py:265-270 | the grouped query's rows; stated by `IdsOfUserStats` and `StatsTotalIsRaidDamage` |
| RaidLedger.StatsTotal | backend/main.py:271 | `sum(dmg for _, dmg in user_stats)`; stated by `StatsTotalCovering` and `StatsTotalIsRaidDamage` |
| RaidLedger.StatsForAppend | backend/main.py:271 | one more log row adds its damage to the grouped total |
| RaidLedger.StatsTotalCovering | backend/main.py:271 | a grouped total over every contributor equals the raid's logged damage |
| RaidLedger.StatsTotalIsRaidDamage | backend/main.py:265-271 | the total that payouts are divided by is all damage logged against the raid: no row is lost or counted twice |
| RaidLedger.IdsOfUserStats | backend/main.py:265-270 | the player column lists the contributors, each once |
| RaidLedger.Payout | backend/main.py:275-276 | `int(total_pool * dmg / total)`; stated by `PayoutNonNegative` and `PayoutAtMostShare` |
| RaidLedger.PayoutIn | backend/main.py:274-282 | what the loop credits one player; stated by `PayoutInDistinct` and `PayoutInNonNegative` |
| RaidLedger.SumPayouts | backend/main.py:274-282 | everything the loop pays; stated by `SumPayoutsScaled` and `SumPayoutsAtMostPool` |
| RaidLedger.PayoutInDistinct | backend/main.py:274-282 | each contributor is paid once for their own damage; a non-contributor gets nothing |
| RaidLedger.PayoutNonNegative | backend/main.py:275-276 | a share of a non-negative pool is non-negative |
| RaidLedger.PayoutAtMostShare | backend/main.py:275-276 | a payout never exceeds the exact share `pool * dmg / total` |
| RaidLedger.SumPayoutsScaled | backend/main.py:274-282 | the sum of payouts times the total is at most the pool times the summed damage |
| RaidLedger.StatsNonNegative | backend/main.py:265-270 | non-negative logged damage gives non-negative rows |
| RaidLedger.SumPayoutsAtMostPool | backend/main.py:274-282 | the payouts never exceed the pool |
| RaidLedger.PayoutsWithinPool | backend/main.py:273-282 | everything paid lies between 0 and the pool, and every player's credit is non-negative |
| RaidLedger.SumPayoutsNonNegative | backend/main.py:274-282 | the payouts sum to a non-negative amount |
| RaidLedger.PayoutInNonNegative | backend/main.py:274-282 | nobody's credit is negative |
| RaidLedger.PayoutExample | backend/main.py:263-282 | 6000 and 4000 damage split a pool of 1000 as 600 and 400 |
| AttackMessages.Announce | backend/main.py:255-283 | the message built one append at a time is the message function |
| AttackMessages.AttackMessage | backend/main.py:255-283 | the message text; stated by `MessagePieces`, `MessageReports` and `PlainHitOpening` |
| AttackMessages.MissMarkers | backend/main.py:256 | the dodge text holds the dodge marker only |
| AttackMessages.CritMarkers | backend/main.py:257 | the crit text holds the crit marker only |
| AttackMessages.ArmorMarkers | backend/main.py:258 | the armour text holds the shield marker only |
| AttackMessages.DefeatMarkers | backend/main.py:262 | the defeat text holds the skull marker only |
| AttackMessages.RewardMarkers | backend/main.py:283 | the reward suffix holds the coin marker only |
| AttackMessages.HitPrefixMarkers | backend/main.py:255 | the hit text holds no marker |
| AttackMessages.RewardPrefixMarkers | backend/main.py:283 | the reward label holds no marker |
| AttackMessages.NumberHasNoMarker | backend/main.py:255 | a printed number holds no marker |
| AttackMessages.MessagePieces | backend/main.py:255-283 | the message is the opening plus the armour, defeat and reward suffixes, each present exactly under its condition |
| AttackMessages.HitHasNoMarker | backend/main.py:255 | a plain hit's opening holds no marker |
| AttackMessages.PrizeMarker | backend/main.py:283 | the reward suffix holds the coin and no other marker |
| AttackMessages.OpeningMarker | backend/main.py:255-257 | the opening holds the dodge marker on a miss, the crit marker on a crit, and none otherwise |
| AttackMessages.MarkerIn | backend/main.py:255-283 | a marker occurs in the message exactly when its event happened |
| AttackMessages.MessageReports | backend/main.py:255-283 | each of the five markers appears exactly when its event happened |
| AttackMessages.PlainHitOpening | backend/main.py:255 | a plain hit's message starts with "Удар на <damage>!" |
| RaidApi.TotalUsersCount | backend/main.py:105-110 | the real count when there is a player, and exactly 1 when the count is 0 or less |
| RaidApi.TotalUsersCountSizesLikeCount | backend/main.py:110 | the 1-for-0 substitution does not change boss size, since `calculate_hp` clamps the same way |
| RaidApi.GetShop | backend/main.py:123-142 | one listing entry per catalogue item, in catalogue order |
| RaidApi.ItemView | backend/main.py:124-141 | one listing entry; stated by `ItemViewConsistent` |
| RaidApi.ItemViewConsistent | backend/main.py:124-141 | an entry shows the owned level; it is maxed exactly at the sentinel price, else priced 1 to 2000; it is locked exactly as the prerequisite rule says |
| RaidApi.PurchaseRejections | backend/main.py:152-177 | each rejection happens exactly when its check is the first to fail; a purchase succeeds exactly when all pass |
| RaidApi.RegistryItem | backend/shop_config.py:102 | every registry entry is the catalogue item with that key |
| RaidApi.Purchase | backend/main.py:152-189 | the purchase checks and their effect on gold and level; stated by `PurchaseRejections` and `PurchaseDebit` |
| RaidApi.PurchaseDebit | backend/main.py:165-189 | a purchase costs the positive, non-sentinel price of the next level, leaves gold non-negative and raises the level by one |
| RaidApi.NewUser | backend/main.py:199-200 | a player created by an attack starts at level 1 with no XP and no gold |
| RaidApi.Regenerate | backend/main.py:216-218 | the regeneration step; stated by `RegenerateSpec` |
| RaidApi.RegenerateSpec | backend/main.py:216-218 | a living regenerating boss is healed to exactly `min(max_hp, current_hp + max_hp / 200)`; any other boss is unchanged; nothing but the hit points changes |
| RaidApi.DealDamage | backend/main.py:226 | hit points never go below 0, and reach 0 exactly when the damage is at least the hit points |
| RaidApi.MergeDebuffs | backend/main.py:228-231 | new debuffs override old ones and the rest are kept |
| RaidApi.ApplyHit | backend/main.py:216-231 | the hit done field by field equals regeneration, then damage, then the debuff merge |
| RaidApi.HitRaid | backend/main.py:216-231 | regeneration, damage and the debuff merge on the raid; stated by `HitRaidSpec` and `ApplyHit` |
| RaidApi.HitRaidSpec | backend/main.py:216-231 | the hit keeps hit points in range, kills exactly when the damage reaches the regenerated hit points, and merges the debuffs |
| RaidApi.HealEvenOnMiss | backend/main.py:216-226 | a living regenerating boss heals even on an attack that deals nothing |
| RaidApi.XpGain | backend/main.py:233-235 | exactly 100 XP for an attack that is not dodged, and exactly 10 for a dodged one |
| RaidApi.GainXpSpec | backend/main.py:237-240 | a level-up happens exactly when XP reaches 1000 times the old level; it is one level and subtracts 1000 times the new level |
| RaidApi.GainXp | backend/main.py:237-240 | the XP update; stated by `GainXpSpec` and `XpCanGoNegative` |
| RaidApi.XpCanGoNegative | backend/main.py:237-240 | one hit at level 1 with 900 XP gives level 2 with -1000 XP |
| RaidApi.ActiveRaidQuery | backend/main.py:206-207 | the active-raid query finds the last raid exactly when it is active, and no other raid can be active |
| RaidApi.UpgradeLevels | backend/main.py:173-174 | a player's level dictionary, empty for a player with no upgrades, non-negative when all levels are |
| RaidApi.BuyKeeps | backend/main.py:179-186 | a purchase keeps all gold and all upgrade levels non-negative |
| RaidApi.Spawn | backend/main.py:209-213 | a spawned boss is active, at full health, with at least 1000 hit points |
| RaidApi.Register | backend/main.py:198-202 | the attacker is looked up or created as a new player; others are untouched |
| RaidApi.Engage | backend/main.py:206-213 | the active boss is kept, or one is spawned after the retired ones; afterwards exactly the last raid is active |
| RaidApi.Attacked | backend/main.py:198-240 | registration and XP add at most the attacker and change no other player |
| RaidApi.AttackRow | backend/main.py:242-251 | the log row names the raid, player and damage, earns no gold and records the XP |
| RaidApi.Credit | backend/main.py:274-282 | crediting the payouts keeps the set of players |
| RaidApi.CreditNone | backend/main.py:273-274 | crediting no rows changes nobody |
| RaidApi.CreditStep | backend/main.py:274-282 | one row credits its payout to its player, if that player exists |
| RaidApi.GainStep | backend/main.py:277-279 | the attacker's gain is the payout of the attacker's row |
| RaidApi.CreditGold | backend/main.py:274-282 | crediting a non-negative pool never makes gold negative |
| RaidApi.StrikeShape | backend/main.py:198-253 | the attack leaves the attacker registered, a living active boss hit, and every log row with valid references |
| RaidApi.StrikeBounds | backend/main.py:198-253 | for non-negative damage, the attack keeps hit points in range, gold non-negative and logged damage non-negative |
| RaidApi.EngageInRange | backend/main.py:206-213 | looking up or spawning the boss keeps hit points in range |
| RaidApi.AttackedGold | backend/main.py:198-240 | registration and XP leave gold non-negative |
| RaidApi.AppendDamage | backend/main.py:242-252 | a row with non-negative damage keeps logged damage non-negative |
| RaidApi.SurviveKeeps | backend/main.py:226-260 | a boss that survives stays the one active raid, alive and in range |
| RaidApi.RetireKeeps | backend/main.py:260-287 | a retired boss followed by its successor leaves only the successor active |
| RaidApi.Rewarded | backend/main.py:263-282 | the payout keeps the set of players; without a payout nothing changes and the gain is 0 |
| RaidApi.Retired | backend/main.py:260-287 | the dead boss is deactivated and exactly one successor is appended; earlier raids are untouched |
| RaidApi.Settle | backend/main.py:260-287 | the end of the attack; stated by `SettleKeeps` and `SettleBounds` |
| RaidApi.SettleKeeps | backend/main.py:260-287 | the end of the attack leaves exactly one active raid, the last, alive, and valid log references |
| RaidApi.SettleBounds | backend/main.py:260-287 | the end of the attack keeps hit points in range and gold non-negative |
| RaidApi.RewardGold | backend/main.py:263-282 | a paid reward never makes gold negative |
| RaidApi.Game.BuyItem | backend/main.py:145-189 | an unknown player or failed check changes nothing; a purchase debits the price and raises one level; the invariants hold |
| RaidApi.Game.PayContributors | backend/main.py:274-282 | the loop credits every row's payout to its player and returns the attacker's share |
| RaidApi.Game.Strike | backend/main.py:198-253 | registration, boss lookup, hit, XP and log row, each the matching function of the old state |
| RaidApi.Game.Defeat | backend/main.py:260-287 | the death branch pays the contributors, retires the boss and appends one successor |
| RaidApi.Game.Finish | backend/main.py:255-298 | the raid is settled by `Settle`; the result and message report damage, gold, XP, crit, hit points and the events |
| RaidApi.Game.ProcessAttack | backend/main.py:193-298 | the whole attack: the new tables are `Settle` of the struck state; the invariants hold |

## Left out

- The database, sessions, commits, the configuration and the application lifespan are not
  modelled. The tables are the fields of `RaidApi.Game`.
- Concurrency is not modelled. Each handler runs alone, as one atomic step.
- `get_current_raid`, the health endpoint, the user endpoints, the bot and the frontend are
  not part of this model.
- Floating-point rounding is not modelled. Python floats are exact reals, so a result that
  lands just beside an integer boundary in binary floating point can differ from the model.
- Explicit `null` workout fields are not modelled. Every field is a plain number.
- The strategy call in `process_attack` is not modelled as written. It passes five
  arguments to a three-argument constructor and reads a missing `is_miss`, so the
  strategy's verdict is an input (`RaidApi.AttackOutcome`).
- The player's upgrade levels are not read in the attack step. `user.upgrades`
  (`backend/main.py:204`) is not defined on `User`, and the `UserUpgrade` table is not part
  of this model. The per-player levels are `Game.upgrades`.
- The upgrade hooks `modify_input` and `modify_damage` are modelled as functions only. No
  handler calls them.
- The armour and evasion traits affect only the reward pool, as in the source.
- `gold_earned` of a log row is always 0, as in the source. The reward is credited directly
  to the players.
- The row order of the grouped damage query is not fixed by the source. The model uses
  the order of each player's first attack.
- Strip: removes only space, tab, line feed, carriage return, vertical tab and form feed.
  Python's `str.isspace` also counts `\x1c`-`\x1f`, `\x85` and other Unicode spaces; none of
  them occurs in a boss name.
- CreateBoss: accepts any name strings. `BossNameForm` holds for the two name lists, and
  `TrimmedNameForm` for any words without outer whitespace.
- CataloguePriceSentinel: requires a non-negative level. Stored levels start at 1 and only
  grow, and a missing level reads as 0.
- ItemViewConsistent: requires non-negative stored levels, for the same reason.
- PayContributors: requires the attacker to be a registered player, which the attack step
  guarantees.
