/** The four items a dialog offers and the effect each one has. */
module Items {

  /** What an item does to the physics: a speed boost, a launch upwards, low gravity, or nothing. */
  datatype Effect = SpeedBoost | Launch | LowGravity | NoEffect

  const BaseGravity: real := 0.6
  const FloatGravity: real := 0.3
  /** The vertical velocity a launch sets. */
  const LaunchVelocity: real := -18.0
  /** Every item lasts five seconds. */
  const ItemDuration: real := 5.0
  /** The item label shown while nothing is active. */
  const NoItem: string := "None"

  /**
   * The effect of choosing an item by name. Fish boosts speed, Spring launches,
   * Balloon lowers gravity, and Horn does one of the three according to the
   * random draw r (0, 1, or anything else); any other name does nothing.
   */
  function EffectOf(item: string, r: nat): (e: Effect)
    ensures e == NoEffect <==> item !in {"Fish", "Spring", "Balloon", "Horn"}
    ensures item == "Horn" ==> e != NoEffect
  {
    if item == "Fish" then SpeedBoost
    else if item == "Spring" then Launch
    else if item == "Balloon" then LowGravity
    else if item == "Horn" then (if r == 0 then SpeedBoost else if r == 1 then Launch else LowGravity)
    else NoEffect
  }

  /** The horn's three draws give, in turn, the effect of each of the other three items. */
  lemma HornActsAsAnotherItem(r: nat)
    requires r < 3
    ensures EffectOf("Horn", r) == EffectOf(["Fish", "Spring", "Balloon"][r], r)
  {
  }
}
