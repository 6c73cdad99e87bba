# rpg-cli character core in Dafny

This project models the character rules of rpg-cli, a terminal role-playing game. It covers:

- the character record and its progression: creation, level-ups, the experience cascade, damage, healing, class changes and status effects;
- the combat formulas;
- the class registry and the grouping of a parsed class list by category;
- enemy generation: the enemy level, the weighted choice of enemy category, and the scripted "shadow" and "dev" encounters.

The modules follow the source files:

| module | models |
|---|---|
| `Classes` (`classes.dfy`) | `src/character/class.rs`: `Stat`, `Class`, `Category`, the registry lookups and the grouping loop of `from_bytes` |
| `Characters` (`characters.dfy`) | `src/character/mod.rs`: the `Character` class, whose methods update its fields in place as the Rust methods do, and its pure queries |
| `Enemies` (`enemies.dfy`) | `src/character/enemy.rs`: `at`, `level`, `should_find_shadow`, `should_find_dev` and `weighted_choice` |
| `Numeric` (`numeric.dfy`) | Rust's truncating `/` on `i32` (`Quot`), and the integer square root used for the experience curve |
| `Randomness` (`randomness.dfy`) | the game's randomizer service, as an injected value |
| `Wrappers` (`wrappers.dfy`) | `Option` and `Result` |
| `Scenarios` (`scenarios.dfy`) | the unit tests of `src/character/mod.rs`, replayed as methods whose assertions the verifier proves |

Modelling choices:

- **Randomness.** Randomness is injected. `Randomizer` carries three total functions for the jitter of stat increases, of status-effect damage and of enemy levels. The game's tests run with a randomizer that returns the nominal value, which is `Identity`, and `Nominal(dice)` characterises every such randomizer. The thread RNG draws are explicit `Rolls`:
  - a 1-in-10 chance is a draw in `[0, 10)` that succeeds when it is 0;
  - the weighted category choice is a draw in `[0, total weight)`;
  - the uniform class choice is an index.
- **Registry.** The process-global registry is an explicit `Registry` value, a `map<Category, seq<Class>>`. Each lookup requires the key it unwraps, where the source would panic.
- **Experience curve.** `xp_for_next` computes `floor(30 * level^1.5)` in floating point. Here it is the exact integer square root of `900 * level^3`, and it is 0 at level 0 or below.
- **Integers.** `i32` values are unbounded integers. Every `/` on signed values in the model is the truncating `Quot`.

## Model

| member | source | states |
|---|---|---|
| Classes.StatCurve | src/character/class.rs:21-23 | A stat is its base at level 1 and grows by exactly its increase per level. At any level it equals the level-0 seed plus `level` increases. |
| Classes.Of | src/character/class.rs:96-98 | Returns the category's group. In a grouped registry every class in it has that category. |
| Classes.PlayerFirst | src/character/class.rs:71-73 | Returns the first class of the non-empty Player group. Looking that class up by its own name finds it again. In a grouped registry it is a Player class. |
| Classes.Named | src/character/class.rs:76-79 | The filter keeps only input classes that carry the name. It is empty exactly when no class carries the name. |
| Classes.NamedHead | src/character/class.rs:76-81 | The head of the filtered list is the first class in the group with that name. |
| Classes.PlayerByName | src/character/class.rs:75-82 | Returns `None` exactly when no Player class has the name. Otherwise it returns the first Player class with that name. |
| Classes.Random | src/character/class.rs:84-87 | The chosen class belongs to the category's group, and in a grouped registry it has that category. |
| Classes.NamesOf | src/character/class.rs:90-93 | A name is in the set exactly when some class in the list carries it. The set has no more names than the list has classes. |
| Classes.Names | src/character/class.rs:89-94 | A name is in the result exactly when a class of the category carries it. |
| Classes.OfCategory | src/character/class.rs:111-118 | The group of a category is never longer than the input. |
| Classes.OfCategorySnoc | src/character/class.rs:112-116 | Appending a class extends its own category's group by that class and leaves every other group unchanged. |
| Classes.OccursSnoc | src/character/class.rs:112-116 | After a class is appended, a category occurs exactly when it occurred before or is the appended class's category. |
| Classes.Group | src/character/class.rs:105-119 | The keys are exactly the categories that occur in the input. Each group holds that category's classes in input order. |
| Classes.OfCategoryEmpty | src/character/class.rs:113-115 | A category absent from the input has an empty group. |
| Classes.OfCategoryMembers | src/character/class.rs:111-118 | Every class in a group comes from the input and has the group's category. |
| Classes.OfCategoryHas | src/character/class.rs:111-118 | Every input class lands in the group of its category. |
| Classes.GroupSizes | src/character/class.rs:111-118 | The four group sizes add up to the input length, so grouping loses and duplicates nothing. |
| Classes.GroupIsGrouped | src/character/class.rs:105-119 | Every group built by `Group` is non-empty and holds only its own category. The registry is complete exactly when every category occurs in the input. |
| Characters.XpForNextBracket | src/character/mod.rs:204-208 | From level 1 on, the threshold is the integer square root of `900 * level^3`, that is `floor(30 * level^1.5)`. At level 0 or below it is 0. |
| Characters.XpForNextIs | src/character/mod.rs:204-208 | The threshold is unique: any value that brackets the curve is the threshold. |
| Characters.XpForNextValues | src/character/mod.rs:426-433 | The thresholds of levels 1, 2 and 3 are 30, 84 and 155. |
| Characters.XpForNext | src/character/mod.rs:204-208 | The threshold is 0 below level 1. From level 1 on, a level costs at least 30 experience, which is what makes the level-up loop end. |
| Characters.XpForNextMonotone | src/character/mod.rs:204-208 | Higher levels never cost less. |
| Characters.CascadeUnique | src/character/mod.rs:156-168 | A grant of experience determines how many levels the loop climbs. |
| Characters.PaidStep | src/character/mod.rs:161-166 | One more paid level extends the paid prefix, and the spent experience grows by that level's threshold. |
| Characters.CascadeNone | src/character/mod.rs:156-168 | Experience below the next threshold buys no level. |
| Characters.CascadeOne | src/character/mod.rs:156-168 | Enough experience for one threshold but not for two buys exactly one level and keeps the rest. |
| Characters.CascadeTwo | src/character/mod.rs:156-168 | Enough experience for two thresholds but not for three buys exactly two levels and keeps the rest. |
| Characters.CascadeExamples | src/character/mod.rs:436-455 | From level 1: 20 experience gives no level and keeps 20. 45 gives one level and keeps 15. 120 gives two levels and keeps 6. |
| Characters.Refill | src/character/mod.rs:186-196 | The refilled pool never exceeds the maximum or the old value plus the amount, and equals one of the two. From a pool at or below its maximum, it never drops for a non-negative amount. |
| Characters.TickDamage | src/character/mod.rs:290 | A status tick takes at least 1 hit point, and 5% of the maximum rounded down from 20 hit points on. Below 40 hit points it takes exactly 1. |
| Characters.Character.New | src/character/mod.rs:61-88 | A new character has the requested level (at least 0), no experience, no equipment and no status effect. Each stat is its level-0 seed plus one jittered increase per level, and both pools are full. Under a nominal randomizer every stat equals the class curve at that level. |
| Characters.Character.IncreaseLevel | src/character/mod.rs:133-153 | The level rises by exactly 1 and every stat grows by its jittered increase. The hit points and mana already lost stay lost. In-range pools stay in range when the jittered hp and mp increases are non-negative. |
| Characters.Character.AddExperience | src/character/mod.rs:156-168 | Levels gained equal the rise in level. The experience left is the grant minus the thresholds paid, and it is below the new threshold. The climb is the unique cascade for the grant. Stats grow by one increase per level gained, and deficits are kept. |
| Characters.Character.ReceiveDamage | src/character/mod.rs:170-182 | Damage at or above the current hit points sets them to 0 and reports `Dead`. Otherwise exactly the damage is taken. The result is an error exactly when the character is dead. Only `currentHp` changes. |
| Characters.Character.Heal | src/character/mod.rs:186-190 | The new hit points are `min(max, current + amount)` and the result is the rise. For a non-negative amount from a valid pool, the result lies in `[0, amount]`, and it is 0 at full health. |
| Characters.Character.RestoreMp | src/character/mod.rs:192-196 | The same as `Heal`, for mana. |
| Characters.Character.HealFull | src/character/mod.rs:199-201 | From non-negative pools, both pools end full and each result is the amount that was missing. In-range pools stay in range. |
| Characters.Character.ChangeClass | src/character/mod.rs:93-130 | The current name gives `Ok(0)` with nothing changed, and an unknown name gives `ClassNotFound` with nothing changed. Any other Player class returns the old experience, zeroes it, takes the class and keeps the equipment. At level 1 the character is re-rolled. At any level other than 1 the stats are kept, and mana is granted only to a character without it who turns magic. |
| Characters.Character.Reroll | src/character/mod.rs:101-108 | The character becomes a fresh level-1 character of the new class. Sword and shield are untouched. |
| Characters.Character.MaybeRemoveStatusEffect | src/character/mod.rs:277-283 | Reports whether a status effect was present and leaves none. |
| Characters.Character.ReceiveStatusEffectDamage | src/character/mod.rs:286-297 | Without a status effect nothing happens. With one, the jittered tick damage is taken as ordinary damage: `Dead` at or beyond the current hit points, otherwise `Ok(Some(damage))`. |
| Characters.Character.PhysicalAttack | src/character/mod.rs:223-230 | A magic class hits for a third of its strength, truncated toward zero for either sign, and ignores the sword. Any other class hits for its strength plus the sword's. |
| Characters.Character.MpCost | src/character/mod.rs:245-248 | A magic attack costs a third of the class's mana curve at the current level, truncated toward zero for either sign. Non-magic classes pay nothing. |
| Characters.Character.Damage | src/character/mod.rs:213-221 | The damage is at least 1 whatever the receiver's defence. A class with mana, holding at least a third of its mana curve, casts for three times its strength less the receiver's shield and pays that third. Otherwise it attacks physically, less the shield, at no mana cost. |
| Characters.Character.XpGained | src/character/mod.rs:257-269 | At equal levels the experience is the damage times the category multiplier. For non-negative damage: against a higher receiver it is at least double that; against a lower one it is at most that, and 0 once the gap reaches the damage; and it is never negative. |
| Characters.Character.RoundedLevel | src/character/mod.rs:301-304 | Below level 5 the result is 1. From level 5 on it is the multiple of 5 in `(level - 5, level]`, that is, the level rounded down to a multiple of 5 (5 at levels 5 to 9). |
| Enemies.BaseLevel | src/character/enemy.rs:29-31 | Before jitter the enemy level is half the player level plus the distance minus one, and at least 1. |
| Enemies.BaseLevelExamples | src/character/enemy.rs:75-91 | The nine enemy levels the unit test expects for player levels 1, 5 and 10 at distances 1 to 3. |
| Enemies.Level | src/character/enemy.rs:29-32 | Under any randomizer that returns nominal values, the enemy level is the base level, and so at least 1. |
| Enemies.LevelUnderIdentity | src/character/enemy.rs:29-32 | With the identity randomizer the enemy level is the base level. |
| Enemies.BaseLevelMonotone | src/character/enemy.rs:29-31 | Stronger players and longer distances never meet weaker enemies. |
| Enemies.Weights | src/character/enemy.rs:48-61 | Each tier weighs Common, Rare and Legendary in that order, with a positive total weight. |
| Enemies.Pick | src/character/enemy.rs:63-66 | The weighted pick only returns an entry of positive weight. |
| Enemies.HitsHead | src/character/enemy.rs:63-66 | The draws below the first weight all pick the first entry. |
| Enemies.HitsTail | src/character/enemy.rs:63-66 | The draws past the first weight pick as the remaining entries would. |
| Enemies.PickFrequency | src/character/enemy.rs:63-66 | Of the equally likely draws, exactly the category's weight pick it, so each category comes with probability weight / total. |
| Enemies.WeightOfAtLeast | src/character/enemy.rs:48-61 | A category weighs at least as much as any one of its entries. |
| Enemies.WeightedChoice | src/character/enemy.rs:44-69 | The chosen category is never Player and never weighted 0 for the tier. In particular Legendary never appears Near. |
| Enemies.ChanceOneInTen | src/character/enemy.rs:34-42 | Where an encounter is allowed, exactly one of the ten equally likely rolls triggers it. Where it is not allowed, none does. |
| Enemies.Kind | src/character/enemy.rs:8-19 | The shadow is met exactly at home on a 1-in-10 draw. The dev is met exactly in the game directory on a 1-in-10 draw when the shadow was not. Elsewhere the enemy is always a normal one. |
| Enemies.ShadowClass | src/character/enemy.rs:9-10 | The player's class renamed "shadow", with every stat, the category and the status effect unchanged. |
| Enemies.DevClass | src/character/enemy.rs:13-17 | A class renamed "dev" with its hit point, strength and speed bases halved, truncated toward zero for either sign. Every increase, the mana curve, the category and the status effect are unchanged. |
| Enemies.Template | src/character/enemy.rs:8-24 | A shadow is the player's class at player level + 3. A dev is the first player class, halved, at the player's level. Otherwise the enemy is a class from the weighted category at the jittered base level, and in a grouped registry never a Player or zero-weight class. |
| Enemies.At | src/character/enemy.rs:7-27 | The enemy is a fresh character of the chosen class at the chosen level (at least 0). It has no experience, equipment or status effect. Each stat is the class's level-0 seed plus one jittered increase per level, and both pools are full. |

## Left out

- YAML parsing of the class list and the embedded `classes.yaml` defaults are not modelled. `Group` starts from an already-parsed list of classes.
- The process-global registry and its lazy initialisation (`Class::load`) are replaced by an explicit `Registry` argument.
- `Class::of` and `Class::player_first` panic when a category is missing or empty. Here those cases are preconditions.
- The pseudo-random generator is not modelled. Random draws are explicit arguments, and the randomizer's jitter is a total function. As a result, two draws of the same kind with the same nominal value return the same value within one model run.
- The equipment and location modules are not part of this model. Sword and shield are reduced to their strengths, and a location to its home and game-directory flags and its distance tier with its length.
- `Characters.XpForNext`: the threshold is the exact `floor(30 * level^1.5)`. Floating-point rounding of `powf` at very large levels is not modelled.
- 32-bit overflow and the saturating float-to-integer cast are not modelled. The overflow test of `src/character/mod.rs` is therefore not replayed.
- `Characters.Character.XpGained`: the contract gives the exact value only at equal levels, and bounds for a higher or lower receiver. The exact value in those cases is the function body itself.
- `name()`, `is_player()`, `Default`, `player()` and serialization are not modelled.
- `Character.MagicAttack`, `Character.CanMagicAttack`, `Character.Defense` and `Class.IsMagic` are plain accessors. Their behaviour is stated through `Damage` and `PhysicalAttack`.
- `Character.InflictedStatusEffect` is the plain accessor `cls.inflicts` (src/character/mod.rs:272-275), with no contract of its own.
- `Characters.Character.IsDead` (`is_dead`, src/character/mod.rs:180-182) is a plain accessor. `ReceiveDamage` states that its error result coincides with it.
- `Characters.Multiplier` (src/character/mod.rs:258-262) is a plain category table. `XpGained` states its effect.
- `Classes.Stat.At` (src/character/class.rs:21-23) is a plain definition without its own contract. Its curve is stated by `Classes.StatCurve`.
- `Enemies.Chance` (src/character/enemy.rs:34-42) is a plain definition. Its 1-in-10 frequency is stated by `Enemies.ChanceOneInTen`, and its use is stated by `Enemies.Kind`.
- The class-change tests depend on the contents of `classes.yaml`, which is not part of this model. Those scenarios are stated for any registry whose classes have the names and kinds the tests rely on.
