/** The player's ship: moves left and right within padded screen bounds,
    fires repeatedly while Space is held, and loads the "Win Screen" scene
    when its health runs out. */
module Players {
  import opened Geometry
  import opened Projectiles
  import opened Levels

  const DefaultSpeed: real := 15.0
  const DefaultPadding: real := 1.0
  const DefaultFiringRate: real := 0.2
  const DefaultHealth: real := 250.0

  /** The scene the player's death asks for. */
  const DeathScene: string := "Win Screen"

  /** What the input service reports for one frame: Space went down / came
      up this frame (`GetKeyDown` / `GetKeyUp`) and whether the arrows are
      held (`GetKey`). */
  datatype Input = Input(spaceDown: bool, spaceUp: bool, leftHeld: bool, rightHeld: bool)

  class PlayerController {
    const speed: real
    const padding: real
    const firingRate: real
    var health: real
    var position: Vector3
    var xMin: real
    var xMax: real
    /** Number of `InvokeRepeating("Fire", ...)` schedules that are active;
        `CancelInvoke("Fire")` removes them all. */
    var repeatingFire: nat
    /** Set once `Destroy(gameObject)` has been requested. */
    var destroyed: bool

    /** The ship fires repeatedly while at least one schedule is active. */
    predicate Firing()
      reads this
    {
      repeatingFire > 0
    }

    constructor (position: Vector3, speed: real, padding: real, firingRate: real, health: real)
      ensures this.position == position && this.speed == speed && this.padding == padding
      ensures this.firingRate == firingRate && this.health == health
      ensures xMin == 0.0 && xMax == 0.0 && !Firing() && !destroyed
    {
      this.position := position;
      this.speed := speed;
      this.padding := padding;
      this.firingRate := firingRate;
      this.health := health;
      xMin, xMax := 0.0, 0.0;
      repeatingFire := 0;
      destroyed := false;
    }

    /** `Start`: `leftmostX` and `rightmostX` are the x coordinates the
        camera gives for the left and right edges of the viewport. */
    method Start(leftmostX: real, rightmostX: real)
      modifies this
      ensures xMin == leftmostX + padding && xMax == rightmostX - padding
      ensures position == old(position) && health == old(health)
      ensures repeatingFire == old(repeatingFire) && destroyed == old(destroyed)
    {
      xMin := leftmostX + padding;
      xMax := rightmostX - padding;
    }

    /** `Update`: starts or cancels repeating fire, moves by one step and
        clamps x to [xMin, xMax]. Left wins when both arrows are held. */
    method Update(input: Input, deltaTime: real)
      modifies this
      ensures input.spaceUp ==> !Firing()
      ensures input.spaceDown && !input.spaceUp ==> repeatingFire == old(repeatingFire) + 1
      ensures !input.spaceDown && !input.spaceUp ==> repeatingFire == old(repeatingFire)
      ensures position.y == old(position.y) && position.z == old(position.z)
      ensures input.leftHeld ==> position.x == Clamp(old(position.x) - speed * deltaTime, xMin, xMax)
      ensures !input.leftHeld && input.rightHeld ==> position.x == Clamp(old(position.x) + speed * deltaTime, xMin, xMax)
      ensures !input.leftHeld && !input.rightHeld ==> position.x == Clamp(old(position.x), xMin, xMax)
      ensures xMin <= xMax ==> xMin <= position.x <= xMax
      ensures xMin == old(xMin) && xMax == old(xMax)
      ensures health == old(health) && destroyed == old(destroyed)
    {
      if input.spaceDown {
        repeatingFire := repeatingFire + 1;
      }
      if input.spaceUp {
        repeatingFire := 0;
      }
      if input.leftHeld {
        position := position.(x := position.x + -(speed * deltaTime));
      } else {
        if input.rightHeld {
          position := position.(x := position.x + speed * deltaTime);
        }
      }
      var pos := position;
      var newX := Clamp(pos.x, xMin, xMax);
      position := Vector3(newX, pos.y, pos.z);
    }

    /** `OnTriggerEnter2D`: `missile` is the collider's `Projectile`
        component, `null` when it has none. A beam lowers health by its
        damage and is always destroyed; the player dies exactly when its
        health is then at most 0. */
    method OnTriggerEnter2D(missile: Projectile?, levels: LevelManager) returns (died: bool)
      modifies this, missile, levels
      ensures missile == null ==> !died && unchanged(this) && unchanged(levels)
      ensures missile != null ==>
        && health == old(health) - missile.damage
        && missile.destroyed
        && (died <==> health <= 0.0)
      ensures died ==> destroyed && levels.requests == old(levels.requests) + [DeathScene]
      ensures !died ==> destroyed == old(destroyed) && unchanged(levels)
      ensures position == old(position) && repeatingFire == old(repeatingFire)
      ensures xMin == old(xMin) && xMax == old(xMax)
    {
      died := false;
      if missile != null {
        var damage := missile.GetDamage();
        health := health - damage;
        missile.Hit();
        if health <= 0.0 {
          Die(levels);
          died := true;
        }
      }
    }

    /** `Die`: asks for the "Win Screen" scene, then destroys the ship. */
    method Die(levels: LevelManager)
      modifies this, levels
      ensures levels.requests == old(levels.requests) + [DeathScene]
      ensures destroyed
      ensures health == old(health) && position == old(position) && repeatingFire == old(repeatingFire)
      ensures xMin == old(xMin) && xMax == old(xMax)
    {
      levels.LoadLevel(DeathScene);
      destroyed := true;
    }
  }

  /** Holding Space down and releasing it: fire is on after the key-down
      frame and off after the key-up frame; pressing both in one frame
      leaves it off, since the cancel runs second. */
  method FireOnThenOff() returns (onAfterDown: bool, onAfterUp: bool, onAfterBoth: bool)
    ensures onAfterDown && !onAfterUp && !onAfterBoth
  {
    var player := new PlayerController(Vector3(0.0, 0.0, 0.0), DefaultSpeed, DefaultPadding, DefaultFiringRate, DefaultHealth);
    player.Update(Input(true, false, false, false), 0.02);
    onAfterDown := player.Firing();
    player.Update(Input(false, true, false, false), 0.02);
    onAfterUp := player.Firing();
    player.Update(Input(true, true, false, false), 0.02);
    onAfterBoth := player.Firing();
  }
}
