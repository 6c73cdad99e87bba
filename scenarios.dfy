/** The game's unit tests for the character, replayed against the model with the
    identity randomizer. */
module Scenarios {
  import opened Wrappers
  import opened Randomness
  import opened Classes
  import opened Characters

  /** The class the character tests use. */
  function TestClass(): Class
  {
    Class("test", Stat(25, 7), None, Stat(10, 3), Stat(10, 2), Player, None)
  }

  method NewScenario()
  {
    IdentityIsNominal();
    var hero := new Character.New(TestClass(), 1, Identity);
    assert hero.level == 1 && hero.xp == 0;
    assert hero.currentHp == 25 && hero.maxHp == 25;
    assert hero.strength == 10 && hero.speed == 10;
    assert hero.statusEffect.None?;
  }

  method IncreaseLevelScenario()
  {
    IdentityIsNominal();
    var hero := new Character.New(TestClass(), 1, Identity);
    hero.maxHp, hero.currentHp := 20, 20;
    hero.strength, hero.speed := 10, 5;
    hero.IncreaseLevel(Identity);
    assert hero.level == 2 && hero.maxHp == 27 && hero.strength == 13 && hero.speed == 7;
    hero.currentHp := hero.currentHp - 7;
    hero.IncreaseLevel(Identity);
    assert hero.level == 3 && hero.currentHp == hero.maxHp - 7;
  }

  method DamageScenario()
  {
    IdentityIsNominal();
    var hero := new Character.New(TestClass(), 1, Identity);
    var foe := new Character.New(TestClass(), 1, Identity);
    hero.strength, foe.strength := 10, 10;
    assert hero.Damage(foe).0 == 10;
    foe.level, foe.strength := 2, 15;
    assert hero.Damage(foe).0 == 10;
    assert foe.Damage(hero).0 == 15;
    foe.level, foe.strength := 5, 40;
    assert hero.Damage(foe).0 == 10;
    assert foe.Damage(hero).0 == 40;
  }

  method XpGainedScenario()
  {
    IdentityIsNominal();
    var hero := new Character.New(TestClass(), 1, Identity);
    var foe := new Character.New(TestClass(), 1, Identity);
    assert hero.XpGained(foe, 10) == 10;
    foe.level := 2;
    assert hero.XpGained(foe, 10) == 20;
    assert foe.XpGained(hero, 10) == 5;
    foe.level := 5;
    assert hero.XpGained(foe, 10) == 50;
    assert foe.XpGained(hero, 10) == 2;
  }

  method XpForNextScenario()
  {
    IdentityIsNominal();
    var hero := new Character.New(TestClass(), 1, Identity);
    XpForNextValues();
    assert XpForNext(hero.level) == 30;
    hero.IncreaseLevel(Identity);
    assert XpForNext(hero.level) == 84;
    hero.IncreaseLevel(Identity);
    assert XpForNext(hero.level) == 155;
  }

  method AddExperienceScenario()
  {
    IdentityIsNominal();
    CascadeExamples();
    var hero := new Character.New(TestClass(), 1, Identity);
    var gained := hero.AddExperience(20, Identity);
    CascadeUnique(1, 20, gained, 0);
    assert gained == 0 && hero.level == 1 && hero.xp == 20;
    gained := hero.AddExperience(25, Identity);
    CascadeUnique(1, 45, gained, 1);
    assert gained == 1 && hero.level == 2 && hero.xp == 15;
  }

  method AddExperienceCascadeScenario()
  {
    IdentityIsNominal();
    CascadeExamples();
    var hero := new Character.New(TestClass(), 1, Identity);
    var gained := hero.AddExperience(120, Identity);
    CascadeUnique(1, 120, gained, 2);
    assert gained == 2 && hero.level == 3 && hero.xp == 6;
    assert hero.xp < XpForNext(hero.level);
  }

  method HealScenario()
  {
    IdentityIsNominal();
    var hero := new Character.New(TestClass(), 1, Identity);
    assert hero.maxHp == 25 && hero.currentHp == 25;
    var restored := hero.Heal(100);
    assert restored == 0 && hero.currentHp == 25;
    var hp, mp := hero.HealFull();
    assert hp == 0 && hero.currentHp == 25;
    hero.currentHp := 10;
    restored := hero.Heal(5);
    assert restored == 5 && hero.currentHp == 15;
    restored := hero.Heal(100);
    assert restored == 10 && hero.currentHp == 25;
    hero.currentHp := 10;
    hp, mp := hero.HealFull();
    assert hp == 15 && hero.maxHp == 25 && hero.currentHp == 25;
  }

  method StatusEffectScenario()
  {
    IdentityIsNominal();
    var hero := new Character.New(TestClass(), 1, Identity);
    var r := hero.ReceiveStatusEffectDamage(Identity);
    assert hero.currentHp == 25;
    hero.statusEffect := Some(Burn);
    r := hero.ReceiveStatusEffectDamage(Identity);
    assert hero.currentHp == 24;
    hero.statusEffect := Some(Poison);
    r := hero.ReceiveStatusEffectDamage(Identity);
    assert hero.currentHp == 23;
    var removed := hero.MaybeRemoveStatusEffect();
    r := hero.ReceiveStatusEffectDamage(Identity);
    assert removed && hero.currentHp == 23;
    hero.statusEffect := Some(Burn);
    hero.currentHp := 1;
    r := hero.ReceiveStatusEffectDamage(Identity);
    assert r.Err? && hero.IsDead();
  }

  /** The class-change test, for any catalogue whose first player class is a non-magic
      "warrior": changing to the current class leaves the character as it was. */
  method ClassChangeSameScenario(reg: Registry)
    requires Player in reg && |reg[Player]| > 0
    requires PlayerFirst(reg).name == "warrior" && !PlayerFirst(reg).IsMagic()
  {
    var warrior := PlayerFirst(reg);
    var player := new Character.New(warrior, 1, Identity);
    player.xp := 20;
    player.sword := Some(1);

    assert player.level == 1;
    assert player.maxHp == warrior.hp.base by {
      assert Identity.statIncrease(warrior.hp.increase) == warrior.hp.increase;
    }
    assert player.strength == warrior.strength.base by {
      assert Identity.statIncrease(warrior.strength.increase) == warrior.strength.increase;
    }
    assert player.speed == warrior.speed.base by {
      assert Identity.statIncrease(warrior.speed.increase) == warrior.speed.increase;
    }
    var maxHp, strength, speed := player.maxHp, player.strength, player.speed;

    var r := player.ChangeClass(warrior.name, reg, Identity);
    assert r == Ok(0) && player.cls.name == "warrior" && player.xp == 20;
    assert player.maxHp == maxHp && player.strength == strength;
    assert player.speed == speed && player.sword.Some?;
  }

  /** The class-change test, for a catalogue without a "choripan": changing to an unknown
      class fails and leaves the experience as it was. */
  method ClassChangeUnknownScenario(reg: Registry)
    requires Player in reg && |reg[Player]| > 0
    requires PlayerFirst(reg).name == "warrior"
    requires PlayerByName(reg, "choripan").None?
  {
    IdentityIsNominal();
    var player := new Character.New(PlayerFirst(reg), 1, Identity);
    player.xp := 20;

    var r := player.ChangeClass("choripan", reg, Identity);
    assert r.Err? && player.xp == 20;
  }

  /** The class-change test continued: at level 1 the new class rerolls the stats and
      the experience is lost. */
  method ClassChangeRerollScenario(reg: Registry)
    requires Player in reg && |reg[Player]| > 0
    requires PlayerFirst(reg).name == "warrior" && !PlayerFirst(reg).IsMagic()
    requires PlayerByName(reg, "thief").Some? && !PlayerByName(reg, "thief").value.IsMagic()
  {
    IdentityIsNominal();
    var warrior := PlayerFirst(reg);
    var thief := PlayerByName(reg, "thief").value;
    var player := new Character.New(warrior, 1, Identity);
    player.xp := 20;
    player.sword := Some(1);

    var r := player.ChangeClass("thief", reg, Identity);
    assert r == Ok(20) && player.cls == thief && player.xp == 0;
    assert player.maxHp == thief.hp.base && player.strength == thief.strength.base;
    assert player.speed == thief.speed.base && player.sword.Some?;
  }

  /** The class-change test, last step: past level 1 only the class changes, and the
      experience is still lost. */
  method ClassChangeKeepScenario(reg: Registry)
    requires Player in reg
    requires PlayerByName(reg, "warrior").Some? && !PlayerByName(reg, "warrior").value.IsMagic()
    requires PlayerByName(reg, "thief").Some? && !PlayerByName(reg, "thief").value.IsMagic()
  {
    IdentityIsNominal();
    var thief := PlayerByName(reg, "thief").value;
    var player := new Character.New(thief, 2, Identity);
    player.xp := 20;
    player.sword := Some(1);
    var strength, speed, maxHp := player.strength, player.speed, player.maxHp;

    var r := player.ChangeClass("warrior", reg, Identity);
    assert r == Ok(20) && player.cls.name == "warrior" && player.xp == 0;
    assert player.maxHp == maxHp && player.strength == strength;
    assert player.speed == speed && player.sword.Some?;
  }

  /** The magic-class change test: a level-1 warrior who turns mage gets the mage's
      mana, and loses it again on turning back. */
  method ChangeToMagicClassScenario(reg: Registry)
    requires Player in reg && |reg[Player]| > 0
    requires PlayerFirst(reg).name == "warrior" && !PlayerFirst(reg).IsMagic()
    requires PlayerByName(reg, "mage").Some? && PlayerByName(reg, "mage").value.IsMagic()
  {
    IdentityIsNominal();
    var warrior := PlayerFirst(reg);
    var mage := PlayerByName(reg, "mage").value;
    var player := new Character.New(warrior, 1, Identity);
    assert player.maxMp == 0 && player.currentMp == 0;

    var r := player.ChangeClass("mage", reg, Identity);
    var baseMp := mage.mp.value.base;
    assert player.maxMp == baseMp && player.currentMp == baseMp;

    r := player.ChangeClass("warrior", reg, Identity);
    assert player.maxMp == 0 && player.currentMp == 0;
  }

  /** The magic-class change test, continued: a level-3 warrior without mana who turns
      mage gets the mage's base mana. */
  method LateMagicClassScenario(reg: Registry)
    requires Player in reg
    requires PlayerByName(reg, "warrior").Some? && !PlayerByName(reg, "warrior").value.IsMagic()
    requires PlayerByName(reg, "mage").Some? && PlayerByName(reg, "mage").value.IsMagic()
  {
    IdentityIsNominal();
    var warrior := PlayerByName(reg, "warrior").value;
    var mage := PlayerByName(reg, "mage").value;
    var player := new Character.New(warrior, 1, Identity);
    player.IncreaseLevel(Identity);
    player.IncreaseLevel(Identity);
    assert player.maxMp == 0 && player.currentMp == 0;

    var r := player.ChangeClass("mage", reg, Identity);
    var baseMp := mage.mp.value.base;
    assert player.maxMp == baseMp && player.currentMp == baseMp;
  }

  /** The magic-attack test, first half: a non-magic class never casts, even with mana. */
  method WarriorAttackScenario(warrior: Class, swordStrength: int)
    requires !warrior.IsMagic() && warrior.strength.base >= 1
  {
    IdentityIsNominal();
    var hero := new Character.New(warrior, 1, Identity);
    var foe := new Character.New(TestClass(), 1, Identity);
    assert !hero.CanMagicAttack();
    var baseStrength := warrior.strength.base;
    assert hero.Damage(foe) == (baseStrength, 0);
    hero.currentMp, hero.maxMp := 10, 10;
    assert !hero.CanMagicAttack() && hero.Damage(foe) == (baseStrength, 0);
    hero.sword := Some(swordStrength);
    assert hero.Damage(foe) == (Numeric.Max(1, baseStrength + swordStrength), 0);
  }

  /** The magic-attack test, second half: a magic class casts for three times its
      strength while a third of its mana is left, and hits for a third otherwise. */
  method MageAttackScenario(mage: Class, swordStrength: int)
    requires mage.IsMagic() && mage.mp.value.base >= 3 && mage.strength.base >= 3
  {
    IdentityIsNominal();
    var foe := new Character.New(TestClass(), 1, Identity);
    var wizard := new Character.New(mage, 1, Identity);
    var magicStrength := mage.strength.base;
    var cost := Numeric.Quot(wizard.maxMp, 3);
    assert wizard.CanMagicAttack() && wizard.Damage(foe) == (magicStrength * 3, cost);
    wizard.currentMp := cost;
    assert wizard.CanMagicAttack() && wizard.Damage(foe) == (magicStrength * 3, cost);
    wizard.sword := Some(swordStrength);
    assert wizard.Damage(foe) == (magicStrength * 3, cost);
    wizard.currentMp := cost - 1;
    assert !wizard.CanMagicAttack() && wizard.Damage(foe) == (Numeric.Max(1, Numeric.Quot(magicStrength, 3)), 0);
  }
}
