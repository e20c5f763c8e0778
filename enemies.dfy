/** An enemy ship: it fires at random, takes damage from beams and, when its
    health runs out, is destroyed and reports its score value. */
module Enemies {
  import opened Projectiles
  import opened Scoring

  const DefaultHealth: real := 150.0
  const DefaultProjectileSpeed: real := 10.0
  const DefaultShotsPerSeconds: real := 0.5
  const DefaultScoreValue: Int32 := 150

  /** The firing policy: one uniform draw per frame compared against
      `shotsPerSeconds * deltaTime`. */
  predicate ShouldFire(randomValue: real, shotsPerSeconds: real, deltaTime: real)
  {
    randomValue < shotsPerSeconds * deltaTime
  }

  /** A frame of zero length never fires, since `Random.value` is never
      negative. `Random.value` lies in [0, 1], 1 included: once the product
      exceeds 1 every draw fires, and when it is exactly 1 every draw but
      1.0 itself fires. */
  lemma FiringExtremes(randomValue: real, shotsPerSeconds: real, deltaTime: real)
    requires 0.0 <= randomValue <= 1.0
    ensures deltaTime == 0.0 ==> !ShouldFire(randomValue, shotsPerSeconds, deltaTime)
    ensures shotsPerSeconds * deltaTime > 1.0 ==> ShouldFire(randomValue, shotsPerSeconds, deltaTime)
    ensures shotsPerSeconds * deltaTime == 1.0 ==> (ShouldFire(randomValue, shotsPerSeconds, deltaTime) <==> randomValue < 1.0)
  {
  }

  class EnemyController {
    var health: real
    const projectileSpeed: real
    const shotsPerSeconds: real
    const scoreValue: Int32
    /** Set once `Destroy(gameObject)` has been requested. */
    var destroyed: bool

    constructor (health: real, projectileSpeed: real, shotsPerSeconds: real, scoreValue: Int32)
      ensures this.health == health && this.projectileSpeed == projectileSpeed
      ensures this.shotsPerSeconds == shotsPerSeconds && this.scoreValue == scoreValue
      ensures !destroyed
    {
      this.health := health;
      this.projectileSpeed := projectileSpeed;
      this.shotsPerSeconds := shotsPerSeconds;
      this.scoreValue := scoreValue;
      destroyed := false;
    }

    /** An enemy with the fields' initial values. */
    constructor Default()
      ensures health == DefaultHealth && projectileSpeed == DefaultProjectileSpeed
      ensures shotsPerSeconds == DefaultShotsPerSeconds && scoreValue == DefaultScoreValue
      ensures !destroyed
    {
      health := DefaultHealth;
      projectileSpeed := DefaultProjectileSpeed;
      shotsPerSeconds := DefaultShotsPerSeconds;
      scoreValue := DefaultScoreValue;
      destroyed := false;
    }

    /** `Update`: given the frame's `Random.value` and `Time.deltaTime`,
        decides whether `Fire` is called this frame. */
    method Update(randomValue: real, deltaTime: real) returns (fires: bool)
      ensures fires <==> ShouldFire(randomValue, shotsPerSeconds, deltaTime)
    {
      var probability := shotsPerSeconds * deltaTime;
      fires := randomValue < probability;
    }

    /** `OnTriggerEnter2D`: `missile` is the collider's `Projectile`
        component, `null` when it has none. A beam lowers health by its
        damage and is always destroyed; the enemy dies exactly when its
        health is then at most 0. */
    method OnTriggerEnter2D(missile: Projectile?, keeper: ScoreKeeper) returns (died: bool)
      modifies this, missile, keeper
      ensures missile == null ==>
        !died && unchanged(this) && unchanged(keeper)
      ensures missile != null ==>
        && health == old(health) - missile.damage
        && missile.destroyed
        && (died <==> health <= 0.0)
      ensures died ==> destroyed && keeper.score == Wrap32(old(keeper.score) as int + scoreValue as int)
      ensures died ==> keeper.text == Decimal(keeper.score as int)
      ensures !died ==> destroyed == old(destroyed) && unchanged(keeper)
    {
      died := false;
      if missile != null {
        var damage := missile.GetDamage();
        health := health - damage;
        missile.Hit();
        if health <= 0.0 {
          Die(keeper);
          died := true;
        }
      }
    }

    /** `Die`: destroys the ship and adds its score value to the score. */
    method Die(keeper: ScoreKeeper)
      modifies this, keeper
      ensures destroyed && health == old(health)
      ensures keeper.score == Wrap32(old(keeper.score) as int + scoreValue as int)
      ensures keeper.text == Decimal(keeper.score as int)
    {
      destroyed := true;
      keeper.Score(scoreValue);
    }
  }

  /** A default enemy hit twice by default beams: 150 - 100 leaves 50 and
      it survives; the second hit leaves -50, it dies, and its 150 points
      are added to a score of 0. */
  method TwoDefaultHits() returns (afterFirst: real, diedFirst: bool, afterSecond: real, diedSecond: bool, score: Int32)
    ensures afterFirst == 50.0 && !diedFirst
    ensures afterSecond == -50.0 && diedSecond
    ensures score == 150
  {
    var keeper := new ScoreKeeper("0");
    var enemy := new EnemyController.Default();
    var first := new Projectile.Default();
    diedFirst := enemy.OnTriggerEnter2D(first, keeper);
    afterFirst := enemy.health;
    var second := new Projectile.Default();
    diedSecond := enemy.OnTriggerEnter2D(second, keeper);
    afterSecond := enemy.health;
    score := keeper.score;
  }
}
