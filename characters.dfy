/** The mutable game character: leveling, experience, healing, combat formulas,
    status effects and class change. */
module Characters {
  import opened Wrappers
  import opened Numeric
  import opened Randomness
  import opened Classes

  /** The signal that a character's hit points reached zero. */
  datatype Dead = Dead

  /** The error of a class change to a name no player class has. */
  datatype ClassNotFound = ClassNotFound

  // ---------------------------------------------------------------------------
  // Experience curve

  function Cube(n: int): int { n * n * n }

  /** Cubing is monotone from 1 on. */
  lemma CubeMonotone(a: int, b: int)
    requires 1 <= a <= b
    ensures 1 <= Cube(a) <= Cube(b)
  {
    MulMonotone(1, a, 1);
    MulMonotone(1, a, a);
    MulMonotone(a, b, a);
    MulMonotone(a, b, b);
    MulMonotone(a * a, b * b, a);
    MulMonotone(a, b, b * b);
    assert Cube(a) == (a * a) * a && Cube(b) == (b * b) * b;
  }

  /** Experience needed to leave `level`: the floor of 30 * level^1.5, computed exactly as
      the integer square root of 900 * level^3; zero below level 1. */
  function XpForNext(level: int): (r: nat)
    ensures level <= 0 ==> r == 0
    ensures level >= 1 ==> r >= 30
  {
    if level <= 0 then 0
    else
      CubeMonotone(1, level);
      ISqrtAtLeast(900 * Cube(level), 30);
      ISqrt(900 * Cube(level))
  }

  /** The threshold brackets the exact curve: its square is at most 900 * level^3 and the
      next integer's square exceeds it; below level 1 it is zero. */
  lemma XpForNextBracket(level: int)
    ensures level >= 1 ==> XpForNext(level) * XpForNext(level) <= 900 * Cube(level)
    ensures level >= 1 ==> 900 * Cube(level) < (XpForNext(level) + 1) * (XpForNext(level) + 1)
    ensures level <= 0 ==> XpForNext(level) == 0
  {
    if level >= 1 {
      var n := 900 * Cube(level);
      var s := ISqrt(n);
      ISqrtBracket(n);
      assert XpForNext(level) == s;
    }
  }

  /** The thresholds of the first three levels. */
  lemma XpForNextValues()
    ensures XpForNext(1) == 30 && XpForNext(2) == 84 && XpForNext(3) == 155
  {
    assert XpForNext(1) == 30 by { XpForNextIs(1, 30); }
    assert XpForNext(2) == 84 by { XpForNextIs(2, 84); }
    assert XpForNext(3) == 155 by { XpForNextIs(3, 155); }
  }

  /** Any `r` bracketing the square root of 900 * level^3 is the threshold of `level`. */
  lemma XpForNextIs(level: int, r: nat)
    requires level >= 1 && r * r <= 900 * Cube(level) < (r + 1) * (r + 1)
    ensures XpForNext(level) == r
  {
    ISqrtUnique(900 * Cube(level), r);
    assert XpForNext(level) == ISqrt(900 * Cube(level));
  }

  /** Higher levels never cost less. */
  lemma XpForNextMonotone(a: int, b: int)
    requires a <= b
    ensures XpForNext(a) <= XpForNext(b)
  {
    if a >= 1 {
      CubeMonotone(a, b);
      ISqrtMonotone(900 * Cube(a), 900 * Cube(b));
    }
  }

  /** The experience spent to climb `n` levels starting at `from`. */
  ghost function XpSpan(from: int, n: nat): int
  {
    if n == 0 then 0 else XpSpan(from, n - 1) + XpForNext(from + n - 1)
  }

  /** Starting at `level` with `total` experience, climbing exactly `gained` levels is
      what the level-up loop does: each of those levels was paid for, and what is left
      does not pay for the next one. */
  ghost predicate Cascade(level: int, total: int, gained: nat)
  {
    Paid(level, total, gained) && total - XpSpan(level, gained) < XpForNext(level + gained)
  }

  /** Each of the first `n` levels climbed from `level` was paid for out of `total`. */
  ghost predicate Paid(level: int, total: int, n: nat)
  {
    forall k :: 0 <= k < n ==> total - XpSpan(level, k) >= XpForNext(level + k)
  }

  /** Paying for one more level extends the paid prefix by one. */
  lemma PaidStep(level: int, total: int, n: nat)
    requires Paid(level, total, n) && total - XpSpan(level, n) >= XpForNext(level + n)
    ensures Paid(level, total, n + 1)
    ensures XpSpan(level, n + 1) == XpSpan(level, n) + XpForNext(level + n)
  {
  }

  /** The number of levels a grant of experience gives is determined by the grant. */
  lemma CascadeUnique(level: int, total: int, g1: nat, g2: nat)
    requires Cascade(level, total, g1) && Cascade(level, total, g2)
    ensures g1 == g2
  {
  }

  /** Less than the next threshold buys no level. */
  lemma CascadeNone(level: int, total: int)
    requires total < XpForNext(level)
    ensures Cascade(level, total, 0) && total - XpSpan(level, 0) == total
  {
  }

  /** Enough for the next threshold but not for the one after buys exactly one level. */
  lemma CascadeOne(level: int, total: int)
    requires XpForNext(level) <= total < XpForNext(level) + XpForNext(level + 1)
    ensures Cascade(level, total, 1) && total - XpSpan(level, 1) == total - XpForNext(level)
  {
    assert XpSpan(level, 1) == XpForNext(level);
  }

  /** Enough for the next two thresholds but not for the third buys exactly two levels. */
  lemma CascadeTwo(level: int, total: int)
    requires XpForNext(level) + XpForNext(level + 1) <= total
    requires total < XpForNext(level) + XpForNext(level + 1) + XpForNext(level + 2)
    ensures Cascade(level, total, 2)
    ensures total - XpSpan(level, 2) == total - XpForNext(level) - XpForNext(level + 1)
  {
    assert XpSpan(level, 1) == XpForNext(level);
    assert XpSpan(level, 2) == XpForNext(level) + XpForNext(level + 1);
  }

  /** The cascades of the game's tests: from level 1, 20 points give no level and keep
      20; 45 give one level and keep 15; 120 give two levels and keep 6. */
  lemma CascadeExamples()
    ensures Cascade(1, 20, 0) && 20 - XpSpan(1, 0) == 20
    ensures Cascade(1, 45, 1) && 45 - XpSpan(1, 1) == 15
    ensures Cascade(1, 120, 2) && 120 - XpSpan(1, 2) == 6
  {
    XpForNextValues();
    CascadeNone(1, 20);
    CascadeOne(1, 45);
    CascadeTwo(1, 120);
  }

  // ---------------------------------------------------------------------------
  // Growth helpers

  /** The mp a class's characters start growing from (none without an mp curve). */
  function MpSeed(c: Class): int
  {
    if c.mp.Some? then c.mp.value.LevelZero() else 0
  }

  /** The mp gained on one level-up. */
  function MpGrowth(c: Class, dice: Randomizer): int
  {
    if c.mp.Some? then dice.statIncrease(c.mp.value.increase) else 0
  }

  /** A pool refilled by `amount`, never beyond `max`. */
  function Refill(current: int, max: int, amount: int): (r: int)
    ensures r <= max && r <= current + amount
    ensures r == max || r == current + amount
    ensures current <= max && amount >= 0 ==> current <= r
  {
    Min(max, current + amount)
  }

  /** The XP multiplier for defeating a receiver of `category`. */
  function Multiplier(category: Category): int
  {
    match category
    case Rare => 3
    case Legendary => 5
    case _ => 1
  }

  /** Multiplying a non-negative damage by a factor of at least 2 at least doubles it. */
  lemma ScaleUp(damage: int, factor: int, m: int)
    requires factor >= 2 && m >= 1
    ensures damage >= 0 ==> damage * factor * m >= 2 * damage * m >= 0
  {
    if damage >= 0 {
      MulMonotone(2, factor, damage);
      MulMonotone(2 * damage, damage * factor, m);
    }
  }

  /** A quotient of a non-negative damage is at most the damage, and zero once the
      divisor exceeds it. */
  lemma ScaleDown(damage: int, divisor: int, q: int)
    requires damage >= 0 && divisor >= 1
    requires 0 <= q * divisor <= damage < q * divisor + divisor
    ensures 0 <= q <= damage
    ensures divisor > damage ==> q == 0
  {
    if q < 0 {
      MulMonotone(q, -1, divisor);
    }
    MulMonotone(1, divisor, q);
    if divisor > damage && q >= 1 {
      MulMonotone(1, q, divisor);
    }
  }

  /** The hit points a Burn or Poison tick takes before jitter: 5% of the maximum, at least 1. */
  function TickDamage(maxHp: int): (r: int)
    ensures r >= 1
    ensures maxHp >= 20 ==> 20 * r <= maxHp < 20 * r + 20
    ensures maxHp < 40 ==> r == 1
  {
    var share := Quot(maxHp, 20);
    if share >= 1 then share else 1
  }

  class Character {
    var cls: Class
    /** Strength of the equipped sword, if any. */
    var sword: Option<int>
    /** Strength of the equipped shield, if any. */
    var shield: Option<int>
    var level: int
    var xp: int
    var maxHp: int
    var currentHp: int
    var maxMp: int
    var currentMp: int
    var strength: int
    var speed: int
    var statusEffect: Option<StatusEffect>

    /** Both pools lie between zero and their maximum. */
    predicate PoolsInRange()
      reads this
    {
      0 <= currentHp <= maxHp && 0 <= currentMp <= maxMp
    }

    predicate IsDead()
      reads this
    {
      currentHp == 0
    }

    /** A character of class `c` at level `lvl`: the stats start at the level-0
        extrapolation of each curve and then level up `lvl` times. */
    constructor New(c: Class, lvl: int, dice: Randomizer)
      ensures cls == c && level == Max(0, lvl) && xp == 0
      ensures sword == None && shield == None && statusEffect == None
      ensures maxHp == c.hp.LevelZero() + level * dice.statIncrease(c.hp.increase)
      ensures strength == c.strength.LevelZero() + level * dice.statIncrease(c.strength.increase)
      ensures speed == c.speed.LevelZero() + level * dice.statIncrease(c.speed.increase)
      ensures maxMp == MpSeed(c) + level * MpGrowth(c, dice)
      ensures currentHp == maxHp && currentMp == maxMp
      ensures Nominal(dice) ==>
        && maxHp == c.hp.At(level) && strength == c.strength.At(level) && speed == c.speed.At(level)
        && (c.mp.Some? ==> maxMp == c.mp.value.At(level))
    {
      cls := c;
      sword, shield := None, None;
      level, xp := 0, 0;
      maxHp := c.hp.LevelZero();
      currentHp := maxHp;
      maxMp := MpSeed(c);
      currentMp := maxMp;
      strength := c.strength.LevelZero();
      speed := c.speed.LevelZero();
      statusEffect := None;
      new;
      ghost var hpStep, mpStep := dice.statIncrease(c.hp.increase), MpGrowth(c, dice);
      ghost var strengthStep, speedStep := dice.statIncrease(c.strength.increase), dice.statIncrease(c.speed.increase);
      while level < lvl
        invariant cls == c && 0 <= level <= Max(0, lvl) && xp == 0
        invariant sword == None && shield == None && statusEffect == None
        invariant maxHp == c.hp.LevelZero() + level * hpStep
        invariant strength == c.strength.LevelZero() + level * strengthStep
        invariant speed == c.speed.LevelZero() + level * speedStep
        invariant maxMp == MpSeed(c) + level * mpStep
        invariant currentHp == maxHp && currentMp == maxMp
      {
        assert (level + 1) * hpStep == level * hpStep + hpStep;
        assert (level + 1) * strengthStep == level * strengthStep + strengthStep;
        assert (level + 1) * speedStep == level * speedStep + speedStep;
        assert (level + 1) * mpStep == level * mpStep + mpStep;
        IncreaseLevel(dice);
      }
      if Nominal(dice) {
        StatCurve(c.hp, level);
        StatCurve(c.strength, level);
        StatCurve(c.speed, level);
        if c.mp.Some? {
          StatCurve(c.mp.value, level);
        }
      }
    }

    /** One level-up: every stat grows by its (jittered) increase, and the hit points and
        mana already lost stay lost. */
    method IncreaseLevel(dice: Randomizer)
      modifies this`level, this`strength, this`speed, this`maxHp, this`currentHp, this`maxMp, this`currentMp
      ensures level == old(level) + 1
      ensures strength == old(strength) + dice.statIncrease(cls.strength.increase)
      ensures speed == old(speed) + dice.statIncrease(cls.speed.increase)
      ensures maxHp == old(maxHp) + dice.statIncrease(cls.hp.increase)
      ensures maxMp == old(maxMp) + MpGrowth(cls, dice)
      ensures maxHp - currentHp == old(maxHp - currentHp)
      ensures maxMp - currentMp == old(maxMp - currentMp)
      ensures old(PoolsInRange()) && dice.statIncrease(cls.hp.increase) >= 0 && MpGrowth(cls, dice) >= 0
              ==> PoolsInRange()
    {
      level := level + 1;
      strength := strength + dice.statIncrease(cls.strength.increase);
      speed := speed + dice.statIncrease(cls.speed.increase);
      var previousDamage := maxHp - currentHp;
      maxHp := maxHp + dice.statIncrease(cls.hp.increase);
      currentHp := maxHp - previousDamage;
      var previousUsedMp := maxMp - currentMp;
      maxMp := maxMp + MpGrowth(cls, dice);
      currentMp := maxMp - previousUsedMp;
    }

    /** Adds `amount` experience and levels up while the accumulated experience pays for
        the next level; returns the number of levels gained. */
    method AddExperience(amount: int, dice: Randomizer) returns (gained: nat)
      modifies this`xp, this`level, this`strength, this`speed, this`maxHp, this`currentHp, this`maxMp, this`currentMp
      ensures level == old(level) + gained
      ensures xp == old(xp) + amount - XpSpan(old(level), gained)
      ensures xp < XpForNext(level)
      ensures Cascade(old(level), old(xp) + amount, gained)
      ensures strength == old(strength) + gained * dice.statIncrease(cls.strength.increase)
      ensures speed == old(speed) + gained * dice.statIncrease(cls.speed.increase)
      ensures maxHp == old(maxHp) + gained * dice.statIncrease(cls.hp.increase)
      ensures maxMp == old(maxMp) + gained * MpGrowth(cls, dice)
      ensures maxHp - currentHp == old(maxHp - currentHp)
      ensures maxMp - currentMp == old(maxMp - currentMp)
    {
      xp := xp + amount;
      ghost var total := xp;
      gained := 0;
      ghost var strengthStep, speedStep := dice.statIncrease(cls.strength.increase), dice.statIncrease(cls.speed.increase);
      ghost var hpStep, mpStep := dice.statIncrease(cls.hp.increase), MpGrowth(cls, dice);
      var forNext := XpForNext(level);
      while xp >= forNext
        invariant forNext == XpForNext(level)
        invariant level == old(level) + gained
        invariant xp == total - XpSpan(old(level), gained)
        invariant Paid(old(level), total, gained)
        invariant strength == old(strength) + gained * strengthStep
        invariant speed == old(speed) + gained * speedStep
        invariant maxHp == old(maxHp) + gained * hpStep
        invariant maxMp == old(maxMp) + gained * mpStep
        invariant maxHp - currentHp == old(maxHp - currentHp)
        invariant maxMp - currentMp == old(maxMp - currentMp)
        decreases if level < 1 then 1 - level else 0, xp
      {
        assert level >= 1 ==> forNext >= 30;
        PaidStep(old(level), total, gained);
        assert (gained + 1) * strengthStep == gained * strengthStep + strengthStep;
        assert (gained + 1) * speedStep == gained * speedStep + speedStep;
        assert (gained + 1) * hpStep == gained * hpStep + hpStep;
        assert (gained + 1) * mpStep == gained * mpStep + mpStep;
        IncreaseLevel(dice);
        xp := xp - forNext;
        gained := gained + 1;
        forNext := XpForNext(level);
      }
    }

    /** Takes `damage` hit points; at or beyond the current hit points the character
        drops to zero and is dead. */
    method ReceiveDamage(damage: int) returns (r: Result<(), Dead>)
      modifies this`currentHp
      ensures damage >= old(currentHp) ==> currentHp == 0 && r == Err(Dead)
      ensures damage < old(currentHp) ==> currentHp == old(currentHp) - damage && r == Ok(())
      ensures r.Err? <==> IsDead()
      ensures old(PoolsInRange()) && damage >= 0 ==> PoolsInRange()
    {
      if damage >= currentHp {
        currentHp := 0;
        r := Err(Dead);
      } else {
        currentHp := currentHp - damage;
        r := Ok(());
      }
    }

    /** Restores up to `amount` hit points, not beyond the maximum; returns the amount
        actually restored. */
    method Heal(amount: int) returns (restored: int)
      modifies this`currentHp
      ensures currentHp == Refill(old(currentHp), maxHp, amount)
      ensures restored == currentHp - old(currentHp)
      ensures old(currentHp) <= maxHp && amount >= 0 ==> 0 <= restored <= amount && currentHp <= maxHp
      ensures old(currentHp) == maxHp && amount >= 0 ==> restored == 0
      ensures old(PoolsInRange()) && amount >= 0 ==> PoolsInRange()
    {
      var previous := currentHp;
      currentHp := Refill(currentHp, maxHp, amount);
      restored := currentHp - previous;
    }

    /** Restores up to `amount` mana, not beyond the maximum; returns the amount actually
        restored. */
    method RestoreMp(amount: int) returns (restored: int)
      modifies this`currentMp
      ensures currentMp == Refill(old(currentMp), maxMp, amount)
      ensures restored == currentMp - old(currentMp)
      ensures old(currentMp) <= maxMp && amount >= 0 ==> 0 <= restored <= amount && currentMp <= maxMp
      ensures old(currentMp) == maxMp && amount >= 0 ==> restored == 0
      ensures old(PoolsInRange()) && amount >= 0 ==> PoolsInRange()
    {
      var previous := currentMp;
      currentMp := Refill(currentMp, maxMp, amount);
      restored := currentMp - previous;
    }

    /** Fills both pools; returns the hit points and mana restored. */
    method HealFull() returns (hp: int, mp: int)
      modifies this`currentHp, this`currentMp
      ensures old(currentHp) >= 0 ==> currentHp == maxHp && hp == maxHp - old(currentHp)
      ensures old(currentMp) >= 0 ==> currentMp == maxMp && mp == maxMp - old(currentMp)
      ensures old(PoolsInRange()) ==> PoolsInRange()
    {
      hp := Heal(maxHp);
      mp := RestoreMp(maxMp);
    }

    /** Switches to the player class called `name`, losing the accumulated experience.
        At level 1 this re-rolls the character with the new class, keeping only the
        equipment; above it the stats are kept, and a character without mana switching
        to a magic class is granted the class's level-1 mana. */
    method ChangeClass(name: string, reg: Registry, dice: Randomizer)
      returns (r: Result<int, ClassNotFound>)
      requires Player in reg
      modifies this
      ensures name == old(cls.name) ==> r == Ok(0) && unchanged(this)
      ensures name != old(cls.name) && PlayerByName(reg, name).None? ==>
                r == Err(ClassNotFound) && unchanged(this)
      ensures name != old(cls.name) && PlayerByName(reg, name).Some? ==>
                && r == Ok(old(xp)) && xp == 0
                && cls == PlayerByName(reg, name).value
                && sword == old(sword) && shield == old(shield)
      ensures name != old(cls.name) && PlayerByName(reg, name).Some? && old(level) == 1 ==>
                && level == 1 && statusEffect == None
                && maxHp == cls.hp.LevelZero() + dice.statIncrease(cls.hp.increase) && currentHp == maxHp
                && strength == cls.strength.LevelZero() + dice.statIncrease(cls.strength.increase)
                && speed == cls.speed.LevelZero() + dice.statIncrease(cls.speed.increase)
                && maxMp == MpSeed(cls) + MpGrowth(cls, dice) && currentMp == maxMp
      ensures name != old(cls.name) && PlayerByName(reg, name).Some? && old(level) != 1 ==>
                && level == old(level) && statusEffect == old(statusEffect)
                && strength == old(strength) && speed == old(speed)
                && maxHp == old(maxHp) && currentHp == old(currentHp)
                && (if cls.IsMagic() && old(maxMp) == 0
                    then maxMp == MpSeed(cls) + MpGrowth(cls, dice) && currentMp == maxMp
                    else maxMp == old(maxMp) && currentMp == old(currentMp))
    {
      if name == cls.name {
        r := Ok(0);
      } else {
        var found := PlayerByName(reg, name);
        if found.None? {
          r := Err(ClassNotFound);
        } else {
          var c := found.value;
          var lostXp := xp;
          if level == 1 {
            Reroll(c, dice);
          } else {
            cls := c;
            if c.IsMagic() && maxMp == 0 {
              var baseMp := c.mp.value.LevelZero() + dice.statIncrease(c.mp.value.increase);
              maxMp := baseMp;
              currentMp := baseMp;
            }
          }
          xp := 0;
          r := Ok(lostXp);
        }
      }
    }

    /** Rebuilds this character as a new level-1 character of class `c`, then carries the
        equipment over to it. */
    method Reroll(c: Class, dice: Randomizer)
      modifies this`cls, this`level, this`xp, this`maxHp, this`currentHp, this`maxMp, this`currentMp
      modifies this`strength, this`speed, this`statusEffect
      ensures cls == c && level == 1 && xp == 0 && statusEffect == None
      ensures maxHp == c.hp.LevelZero() + dice.statIncrease(c.hp.increase) && currentHp == maxHp
      ensures strength == c.strength.LevelZero() + dice.statIncrease(c.strength.increase)
      ensures speed == c.speed.LevelZero() + dice.statIncrease(c.speed.increase)
      ensures maxMp == MpSeed(c) + MpGrowth(c, dice) && currentMp == maxMp
    {
      var rerolled := new Character.New(c, 1, dice);
      cls, level, xp := rerolled.cls, rerolled.level, rerolled.xp;
      maxHp, currentHp := rerolled.maxHp, rerolled.currentHp;
      maxMp, currentMp := rerolled.maxMp, rerolled.currentMp;
      strength, speed := rerolled.strength, rerolled.speed;
      statusEffect := rerolled.statusEffect;
    }

    /** Cures the current status effect; reports whether there was one. */
    method MaybeRemoveStatusEffect() returns (removed: bool)
      modifies this`statusEffect
      ensures removed == old(statusEffect).Some?
      ensures statusEffect == None
    {
      removed := statusEffect.Some?;
      statusEffect := None;
    }

    /** Applies one tick of a damaging status effect: the jittered `TickDamage` is taken
        as ordinary damage. Without a status effect nothing happens. */
    method ReceiveStatusEffectDamage(dice: Randomizer) returns (r: Result<Option<int>, Dead>)
      modifies this`currentHp
      ensures statusEffect.None? ==> r == Ok(None) && currentHp == old(currentHp)
      ensures statusEffect.Some? ==>
                var d := dice.damage(TickDamage(maxHp));
                && (d >= old(currentHp) ==> r == Err(Dead) && currentHp == 0)
                && (d < old(currentHp) ==> r == Ok(Some(d)) && currentHp == old(currentHp) - d)
    {
      match statusEffect {
        case Some(_) =>
          var damage := dice.damage(TickDamage(maxHp));
          var outcome := ReceiveDamage(damage);
          if outcome.Err? {
            r := Err(Dead);
          } else {
            r := Ok(Some(damage));
          }
        case None =>
          r := Ok(None);
      }
    }

    // -------------------------------------------------------------------------
    // Combat formulas

    function SwordStrength(): int
      reads this
    {
      if sword.Some? then sword.value else 0
    }

    /** A magic class hits with a third of its strength and ignores the sword; any other
        class hits with its strength plus the sword's. */
    function PhysicalAttack(): (r: int)
      reads this
      ensures cls.IsMagic() && strength >= 0 ==> 0 <= 3 * r <= strength < 3 * r + 3
      ensures cls.IsMagic() && strength < 0 ==> 3 * r - 3 < strength <= 3 * r <= 0
      ensures !cls.IsMagic() ==> r == strength + SwordStrength()
    {
      if cls.IsMagic() then
        QuotBounds(strength, 3);
        Quot(strength, 3)
      else strength + SwordStrength()
    }

    function MagicAttack(): int
      reads this
    {
      if cls.IsMagic() then strength * 3 else 0
    }

    /** A magic attack costs a third, rounded down, of the class's canonical mana at the
        current level; other classes pay nothing. */
    function MpCost(): (r: int)
      reads this
      ensures !cls.IsMagic() ==> r == 0
      ensures cls.IsMagic() && cls.mp.value.At(level) >= 0 ==>
                0 <= 3 * r <= cls.mp.value.At(level) < 3 * r + 3
      ensures cls.IsMagic() && cls.mp.value.At(level) < 0 ==>
                3 * r - 3 < cls.mp.value.At(level) <= 3 * r <= 0
    {
      if cls.mp.Some? then
        QuotBounds(cls.mp.value.At(level), 3);
        Quot(cls.mp.value.At(level), 3)
      else 0
    }

    predicate CanMagicAttack()
      reads this
    {
      cls.IsMagic() && currentMp >= MpCost()
    }

    /** Only the shield defends; strength does not. */
    function Defense(): int
      reads this
    {
      if shield.Some? then shield.value else 0
    }

    /** The damage dealt to `receiver` and the mana it costs: a magic attack when the
        class has mana enough for it, a physical one otherwise, never less than 1. */
    function Damage(receiver: Character): (r: (int, int))
      reads this, receiver
      ensures r.0 >= 1
      ensures cls.mp.Some? && currentMp >= Quot(cls.mp.value.At(level), 3) ==>
                r == (Max(1, 3 * strength - receiver.Defense()), Quot(cls.mp.value.At(level), 3))
      ensures !(cls.mp.Some? && currentMp >= Quot(cls.mp.value.At(level), 3)) ==>
                r == (Max(1, PhysicalAttack() - receiver.Defense()), 0)
      ensures !cls.IsMagic() ==> r == (Max(1, strength + SwordStrength() - receiver.Defense()), 0)
    {
      var (raw, cost) := if CanMagicAttack() then (MagicAttack(), MpCost()) else (PhysicalAttack(), 0);
      (Max(1, raw - receiver.Defense()), cost)
    }

    /** Experience earned by dealing `damage` to `receiver`: scaled up by the level gap
        against a stronger receiver, divided by it against a weaker one, and multiplied
        for rare and legendary receivers. */
    function XpGained(receiver: Character, damage: int): (r: int)
      reads this, receiver
      ensures receiver.level == level ==> r == damage * Multiplier(receiver.cls.category)
      ensures damage >= 0 ==> r >= 0
      ensures damage >= 0 && receiver.level > level ==> r >= 2 * damage * Multiplier(receiver.cls.category)
      ensures damage >= 0 && receiver.level < level ==> r <= damage * Multiplier(receiver.cls.category)
      ensures damage >= 0 && level - receiver.level >= damage ==> r == 0
    {
      var m := Multiplier(receiver.cls.category);
      if receiver.level > level then
        ScaleUp(damage, 1 + receiver.level - level, m);
        damage * (1 + receiver.level - level) * m
      else
        var q := Quot(damage, 1 + level - receiver.level);
        if damage >= 0 then
          QuotBounds(damage, 1 + level - receiver.level);
          ScaleDown(damage, 1 + level - receiver.level, q);
          MulMonotone(q, damage, m);
          q * m
        else
          q * m
    }

    function InflictedStatusEffect(): Option<(StatusEffect, nat)>
      reads this
    {
      cls.inflicts
    }

    /** The level rounded down to a multiple of 5, or 1 below level 5. */
    function RoundedLevel(): (r: int)
      reads this
      ensures r >= 1
      ensures r == 1 || r % 5 == 0
      ensures level >= 5 ==> r % 5 == 0 && level - 5 < r <= level
      ensures level < 5 ==> r == 1
    {
      Max(1, Quot(level, 5) * 5)
    }
  }
}
