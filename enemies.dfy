/** Enemy generation: the opponent's class and level from the player's location and
    character, including the scripted "shadow" and "dev" encounters. */
module Enemies {
  import opened Wrappers
  import opened Numeric
  import opened Randomness
  import opened Classes
  import opened Characters

  /** How far from home the player is; `len` is the depth of the location. */
  datatype Distance = Near(len: nat) | Mid(len: nat) | Far(len: nat)

  /** What the generator needs to know about the player's location. */
  datatype Location = Location(isHome: bool, isRpgDir: bool, distance: Distance)

  /** The random draws one encounter may use: two 1-in-10 checks (a draw in [0, 10)
      that succeeds when it is 0), a weighted category draw in [0, total weight), and an
      index into the chosen category. */
  datatype Rolls = Rolls(shadow: nat, dev: nat, category: nat, pick: nat)

  /** Which branch of the generator produced the enemy. */
  datatype Encounter = ShadowEncounter | DevEncounter | NormalEncounter

  // ---------------------------------------------------------------------------
  // Enemy level

  /** The enemy level before jitter: half the player level plus the distance, minus one,
      and at least 1. */
  function BaseLevel(playerLevel: int, distance: int): (r: int)
    ensures r >= 1
    ensures r >= Quot(playerLevel, 2) + distance - 1
    ensures r == 1 || r == Quot(playerLevel, 2) + distance - 1
  {
    var candidate := Quot(playerLevel, 2) + distance - 1;
    if candidate >= 1 then candidate else 1
  }

  /** The enemy levels of the game's tests, for player levels 1, 5 and 10 at depths 1 to 3. */
  lemma BaseLevelExamples()
    ensures BaseLevel(1, 1) == 1 && BaseLevel(1, 2) == 1 && BaseLevel(1, 3) == 2
    ensures BaseLevel(5, 1) == 2 && BaseLevel(5, 2) == 3 && BaseLevel(5, 3) == 4
    ensures BaseLevel(10, 1) == 5 && BaseLevel(10, 2) == 6 && BaseLevel(10, 3) == 7
  {
  }

  /** With the identity randomizer the enemy level is the base level. */
  lemma LevelUnderIdentity(playerLevel: int, distance: int)
    ensures Level(playerLevel, distance, Identity) == BaseLevel(playerLevel, distance)
  {
    IdentityIsNominal();
  }

  /** Stronger players and longer distances never give weaker enemies. */
  lemma BaseLevelMonotone(p1: int, p2: int, d1: int, d2: int)
    requires 0 <= p1 <= p2 && d1 <= d2
    ensures BaseLevel(p1, d1) <= BaseLevel(p2, d2)
  {
    DivMonotone(p1, p2, 2);
  }

  /** The enemy level: the base level passed through the randomizer's jitter. */
  function Level(playerLevel: int, distance: int, dice: Randomizer): (r: int)
    ensures Nominal(dice) ==> r == BaseLevel(playerLevel, distance) && r >= 1
  {
    dice.enemyLevel(BaseLevel(playerLevel, distance))
  }

  // ---------------------------------------------------------------------------
  // Weighted category choice

  /** The category weights of each distance tier: the further from home, the likelier
      the rarer enemies. */
  function Weights(d: Distance): (ws: seq<(Category, nat)>)
    ensures |ws| == 3 && ws[0].0 == Common && ws[1].0 == Rare && ws[2].0 == Legendary
    ensures TotalWeight(ws) > 0
  {
    match d
    case Near(_) => [(Common, 9), (Rare, 2), (Legendary, 0)]
    case Mid(_) => [(Common, 7), (Rare, 10), (Legendary, 1)]
    case Far(_) => [(Common, 1), (Rare, 6), (Legendary, 3)]
  }

  function TotalWeight(ws: seq<(Category, nat)>): nat
  {
    if ws == [] then 0 else ws[0].1 + TotalWeight(ws[1..])
  }

  /** The summed weight of the entries for `c`. */
  function WeightOf(ws: seq<(Category, nat)>, c: Category): nat
  {
    if ws == [] then 0 else (if ws[0].0 == c then ws[0].1 else 0) + WeightOf(ws[1..], c)
  }

  /** The weighted pick for a draw `roll` in [0, total): the first entry whose cumulative
      weight exceeds the draw. It only ever picks an entry of positive weight. */
  function Pick(ws: seq<(Category, nat)>, roll: nat): (r: Category)
    requires roll < TotalWeight(ws)
    ensures exists i :: 0 <= i < |ws| && ws[i].0 == r && ws[i].1 > 0
    decreases |ws|
  {
    if roll < ws[0].1 then ws[0].0
    else
      var r := Pick(ws[1..], roll - ws[0].1);
      assert exists i :: 0 <= i < |ws[1..]| && ws[1..][i].0 == r && ws[1..][i].1 > 0;
      var i :| 0 <= i < |ws[1..]| && ws[1..][i].0 == r && ws[1..][i].1 > 0;
      assert ws[i + 1].0 == r && ws[i + 1].1 > 0;
      r
  }

  /** How many of the draws below `n` pick `c`. */
  function Hits(ws: seq<(Category, nat)>, c: Category, n: nat): nat
    requires n <= TotalWeight(ws)
  {
    if n == 0 then 0 else Hits(ws, c, n - 1) + (if Pick(ws, n - 1) == c then 1 else 0)
  }

  /** The draws below the first weight all pick the first entry. */
  lemma {:induction false} HitsHead(ws: seq<(Category, nat)>, c: Category, n: nat)
    requires ws != [] && n <= ws[0].1
    ensures Hits(ws, c, n) == if ws[0].0 == c then n else 0
  {
    if n > 0 {
      HitsHead(ws, c, n - 1);
    }
  }

  /** The draws past the first weight pick as the remaining entries would. */
  lemma {:induction false} HitsTail(ws: seq<(Category, nat)>, c: Category, k: nat)
    requires ws != [] && k <= TotalWeight(ws[1..])
    ensures Hits(ws, c, ws[0].1 + k) == Hits(ws, c, ws[0].1) + Hits(ws[1..], c, k)
  {
    if k > 0 {
      HitsTail(ws, c, k - 1);
    }
  }

  /** Exactly `WeightOf(ws, c)` of the `TotalWeight(ws)` equally likely draws pick `c`:
      each category is chosen with probability weight / total. */
  lemma {:induction false} PickFrequency(ws: seq<(Category, nat)>, c: Category)
    ensures Hits(ws, c, TotalWeight(ws)) == WeightOf(ws, c)
  {
    if ws != [] {
      HitsHead(ws, c, ws[0].1);
      HitsTail(ws, c, TotalWeight(ws[1..]));
      PickFrequency(ws[1..], c);
    }
  }

  /** The enemy category for distance `d` and a draw `roll` in [0, total weight): never
      the player category, never a category weighted 0 for the tier. */
  function WeightedChoice(d: Distance, roll: nat): (r: Category)
    requires roll < TotalWeight(Weights(d))
    ensures r != Player
    ensures WeightOf(Weights(d), r) > 0
    ensures d.Near? ==> r != Legendary
  {
    var r := Pick(Weights(d), roll);
    var i :| 0 <= i < 3 && Weights(d)[i].0 == r && Weights(d)[i].1 > 0;
    WeightOfAtLeast(Weights(d), i);
    r
  }

  /** A category weighs at least as much as any one of its entries. */
  lemma {:induction false} WeightOfAtLeast(ws: seq<(Category, nat)>, i: int)
    requires 0 <= i < |ws|
    ensures WeightOf(ws, ws[i].0) >= ws[i].1
  {
    if i > 0 {
      WeightOfAtLeast(ws[1..], i - 1);
    }
  }

  // ---------------------------------------------------------------------------
  // Scripted encounters

  /** A 1-in-10 chance, drawn as `roll` in [0, 10), that is only possible where `allowed`. */
  function Chance(allowed: bool, roll: nat): bool
    requires roll < 10
  {
    allowed && roll < 1
  }

  /** Exactly one of the ten equally likely rolls succeeds where the encounter is
      allowed, and none elsewhere. */
  lemma ChanceOneInTen(allowed: bool)
    ensures |set roll: nat | roll < 10 && Chance(allowed, roll)| == if allowed then 1 else 0
  {
    var hits := set roll: nat | roll < 10 && Chance(allowed, roll);
    if allowed {
      assert hits == {0};
    } else {
      assert hits == {};
    }
  }

  /** The generator's dispatch: a shadow first, then a dev, otherwise a normal enemy. */
  function Kind(loc: Location, rolls: Rolls): (k: Encounter)
    requires rolls.shadow < 10 && rolls.dev < 10
    ensures k == ShadowEncounter <==> loc.isHome && rolls.shadow == 0
    ensures k == DevEncounter <==> loc.isRpgDir && rolls.dev == 0 && !(loc.isHome && rolls.shadow == 0)
    ensures !loc.isHome && !loc.isRpgDir ==> k == NormalEncounter
  {
    if Chance(loc.isHome, rolls.shadow) then ShadowEncounter
    else if Chance(loc.isRpgDir, rolls.dev) then DevEncounter
    else NormalEncounter
  }

  /** The player's own class, renamed "shadow", every stat as it was. */
  function ShadowClass(c: Class): (r: Class)
    ensures r.name == "shadow"
    ensures r.hp == c.hp && r.mp == c.mp && r.strength == c.strength && r.speed == c.speed
    ensures r.category == c.category && r.inflicts == c.inflicts
  {
    c.(name := "shadow")
  }

  /** A class renamed "dev" with its hit point, strength and speed bases halved; every
      increase, the mana curve and the category are kept. */
  function DevClass(c: Class): (r: Class)
    ensures r.name == "dev"
    ensures r.hp.increase == c.hp.increase && r.strength.increase == c.strength.increase
    ensures r.speed.increase == c.speed.increase
    ensures r.mp == c.mp && r.category == c.category && r.inflicts == c.inflicts
    ensures c.hp.base >= 0 ==> 0 <= 2 * r.hp.base <= c.hp.base <= 2 * r.hp.base + 1
    ensures c.hp.base < 0 ==> 2 * r.hp.base - 1 <= c.hp.base <= 2 * r.hp.base <= 0
    ensures c.strength.base >= 0 ==> 0 <= 2 * r.strength.base <= c.strength.base <= 2 * r.strength.base + 1
    ensures c.strength.base < 0 ==> 2 * r.strength.base - 1 <= c.strength.base <= 2 * r.strength.base <= 0
    ensures c.speed.base >= 0 ==> 0 <= 2 * r.speed.base <= c.speed.base <= 2 * r.speed.base + 1
    ensures c.speed.base < 0 ==> 2 * r.speed.base - 1 <= c.speed.base <= 2 * r.speed.base <= 0
  {
    QuotBounds(c.hp.base, 2);
    QuotBounds(c.strength.base, 2);
    QuotBounds(c.speed.base, 2);
    c.(name := "dev",
       hp := c.hp.(base := Quot(c.hp.base, 2)),
       strength := c.strength.(base := Quot(c.strength.base, 2)),
       speed := c.speed.(base := Quot(c.speed.base, 2)))
  }

  // ---------------------------------------------------------------------------
  // The generator

  /** The draws fall in their ranges, and the index fits the category drawn. */
  ghost predicate RollsFit(loc: Location, reg: Registry, rolls: Rolls)
  {
    && rolls.shadow < 10 && rolls.dev < 10
    && rolls.category < TotalWeight(Weights(loc.distance))
    && WeightedChoice(loc.distance, rolls.category) in reg
    && rolls.pick < |reg[WeightedChoice(loc.distance, rolls.category)]|
  }

  /** The class and level of the enemy met at `loc` by a player of class `playerClass`
      and level `playerLevel`. */
  function Template(loc: Location, playerClass: Class, playerLevel: int, reg: Registry,
                    dice: Randomizer, rolls: Rolls): (r: (Class, int))
    requires Complete(reg) && RollsFit(loc, reg, rolls)
    ensures Kind(loc, rolls) == ShadowEncounter ==>
              r == (ShadowClass(playerClass), playerLevel + 3) && loc.isHome
    ensures Kind(loc, rolls) == DevEncounter ==>
              r == (DevClass(PlayerFirst(reg)), playerLevel) && loc.isRpgDir
    ensures Kind(loc, rolls) == NormalEncounter ==>
              && r.0 in reg[WeightedChoice(loc.distance, rolls.category)]
              && r.1 == dice.enemyLevel(BaseLevel(playerLevel, loc.distance.len))
    ensures Kind(loc, rolls) == NormalEncounter && Grouped(reg) ==>
              r.0.category != Player && WeightOf(Weights(loc.distance), r.0.category) > 0
  {
    match Kind(loc, rolls)
    case ShadowEncounter => (ShadowClass(playerClass), playerLevel + 3)
    case DevEncounter => (DevClass(PlayerFirst(reg)), playerLevel)
    case NormalEncounter =>
      var category := WeightedChoice(loc.distance, rolls.category);
      (Random(reg, category, rolls.pick), Level(playerLevel, loc.distance.len, dice))
  }

  /** Generates the enemy the player meets at `loc`. */
  method At(loc: Location, player: Character, reg: Registry, dice: Randomizer, rolls: Rolls)
    returns (enemy: Character)
    requires Complete(reg) && RollsFit(loc, reg, rolls)
    ensures fresh(enemy)
    ensures var t := Template(loc, player.cls, player.level, reg, dice, rolls);
            enemy.cls == t.0 && enemy.level == Max(0, t.1) && enemy.xp == 0
    ensures var t := Template(loc, player.cls, player.level, reg, dice, rolls);
            && enemy.maxHp == t.0.hp.LevelZero() + enemy.level * dice.statIncrease(t.0.hp.increase)
            && enemy.strength == t.0.strength.LevelZero() + enemy.level * dice.statIncrease(t.0.strength.increase)
            && enemy.speed == t.0.speed.LevelZero() + enemy.level * dice.statIncrease(t.0.speed.increase)
            && enemy.maxMp == MpSeed(t.0) + enemy.level * MpGrowth(t.0, dice)
    ensures enemy.currentHp == enemy.maxHp && enemy.currentMp == enemy.maxMp
    ensures enemy.sword == None && enemy.shield == None && enemy.statusEffect == None
  {
    var t := Template(loc, player.cls, player.level, reg, dice, rolls);
    enemy := new Character.New(t.0, t.1, dice);
  }
}
