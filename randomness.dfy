/** The injected randomness service: the jitter applied to stat increases, to the damage
    of a status-effect tick and to an enemy's level. Each is a total function of the
    nominal value it jitters. */
module Randomness {

  datatype Randomizer = Randomizer(
    statIncrease: int -> int,
    damage: int -> int,
    enemyLevel: int -> int)

  /** The randomizer the game's tests run with: every jitter returns its nominal value. */
  const Identity: Randomizer := Randomizer(n => n, n => n, n => n)

  /** A randomizer that never perturbs anything. */
  ghost predicate Nominal(dice: Randomizer)
  {
    forall n :: dice.statIncrease(n) == n && dice.damage(n) == n && dice.enemyLevel(n) == n
  }

  lemma IdentityIsNominal()
    ensures Nominal(Identity)
  {
  }
}
