/** The laser beam: it carries a damage amount and is destroyed on impact. */
module Projectiles {

  /** Damage of a beam whose prefab keeps the field's initial value. */
  const DefaultDamage: real := 100.0

  class Projectile {
    /** `damage` is never written after the object exists: the beam's own
        `Start` and `Update` are empty and no other script assigns it. */
    const damage: real
    /** Set once `Destroy(gameObject)` has been requested. */
    var destroyed: bool

    constructor (damage: real)
      ensures this.damage == damage && !destroyed
    {
      this.damage := damage;
      destroyed := false;
    }

    /** A beam built with the field's default value. */
    constructor Default()
      ensures damage == DefaultDamage && !destroyed
    {
      damage := DefaultDamage;
      destroyed := false;
    }

    /** `getDamage`: reads the beam's damage. */
    method GetDamage() returns (d: real)
      ensures d == damage
    {
      d := damage;
    }

    /** `Hit`: the beam is destroyed; its damage is unaffected. */
    method Hit()
      modifies this
      ensures destroyed
    {
      destroyed := true;
    }
  }
}
