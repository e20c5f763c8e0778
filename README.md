# Formation, damage and scoring logic of a 2D arcade shooter

A Dafny model of the game logic of a small Unity shooter in the style of
Galaga. The model covers these parts:

- **Formation controller** (`formations.dfy`). The enemy formation is an
  ordered table of slots, each empty or holding one enemy. It sweeps left
  and right between the screen bounds. When every slot is empty it starts a
  spawn wave, which fills one slot per delayed call.
- **Enemy and player controllers** (`enemies.dfy`, `players.dfy`). A beam
  hit lowers health by the beam's damage and always destroys the beam. The
  ship dies when its health is at most 0. An enemy's death adds its score
  value to the score. The player's death asks for the "Win Screen" scene.
  The player ship moves with clamped x and fires repeatedly while Space is
  held. An enemy fires when a random draw falls below
  `shotsPerSeconds * deltaTime`.
- **Projectile** (`projectiles.dfy`): a damage value and a destroyed flag.
- **Score keeper** (`scoring.dfy`): a C# `int` counter with its UI text.
- **Music player** (`music.dfy`): picks a clip from the scene's build index,
  and keeps one surviving instance across scene loads.
- **Level manager** (`levels.dfy`): only the `LoadLevel` request the player
  makes.

How the engine is modelled:

- Every frame, collision and timer callback is one method call on a class.
- Unity `float`s are `real`s. The score is a 32-bit `Int32` whose addition
  wraps.
- A collider's `Projectile` component is a `Projectile?` argument. `null`
  means the collider has no such component.
- The camera's viewport edges, `Time.deltaTime`, `Random.value` and the
  input keys are parameters.
- An `Invoke("SpawnUntilFull", spawnDelay)` call is a returned `again`
  flag plus a count of pending calls (`pendingSpawns`).
  `OnSpawnTimer` delivers one pending call.
- Each `InvokeRepeating("Fire", …)` adds one to `repeatingFire`.
  `CancelInvoke("Fire")` sets it to 0.
- `Destroy(gameObject)` sets a `destroyed` flag. When a destroyed enemy
  leaves its slot, the formation's `ReleaseSlot` empties that slot.
- The static fields `ScoreKeeper.score` and `MusicPlayer.instance` live on
  objects that are passed in explicitly (`ScoreKeeper`, `MusicRegistry`).

Three behaviours of the code are worth knowing:

- Two spawn chains can be pending at once. When the only enemy spawned so
  far dies before the delayed step runs, the next `Update` sees every slot
  empty and starts a second chain (`Formations.OverlappingChains`).
- A hit on an already destroyed ship is not guarded. It is processed like
  any other hit, and the model does the same: health drops again and a
  second death adds `scoreValue` again. Unity delivers such hits only in
  the frame of the destroy; the model has no frames (see "Left out").
- The score can decrease when the 32-bit sum overflows, so the model
  proves monotonicity only for non-negative points that do not overflow.

## Model

| member | source | states |
|---|---|---|
| `Geometry.Clamp` | Assets/Entities/Player/PlayerController.cs:81 | with min ≤ max the result lies in [min, max]; an in-range value is kept; a value below min becomes min, else a value above max becomes max |
| `Geometry.ClampIdempotent` | Assets/Entities/Player/PlayerController.cs:80-82 | clamping an already clamped x changes nothing when min ≤ max |
| `Projectiles.Projectile.constructor` | Assets/Scripts/Projectile.cs:7 | a beam carries the given damage and is not destroyed; damage is a constant for the beam's lifetime (its Start and Update are empty) |
| `Projectiles.Projectile.Default` | Assets/Scripts/Projectile.cs:7 | the default damage is 100 |
| `Projectiles.Projectile.GetDamage` | Assets/Scripts/Projectile.cs:25-27 | returns the beam's damage |
| `Projectiles.Projectile.Hit` | Assets/Scripts/Projectile.cs:20-22 | the beam is destroyed; its damage is unchanged |
| `Levels.LevelManager.LoadLevel` | Assets/Scripts/LevelManager.cs:7-11 | the requested scene name is appended to the record of load requests |
| `Scoring.Wrap32` | Assets/Scripts/ScoreKeeper.cs:25 | the sum is kept when it fits in 32 bits and otherwise differs from it by a multiple of 2^32 |
| `Scoring.Decimal` | Assets/Scripts/ScoreKeeper.cs:26 | the text is non-empty and starts with '-' exactly for a negative score |
| `Scoring.DecimalRoundTrip` | Assets/Scripts/ScoreKeeper.cs:26 | reading the displayed text back gives the score that was rendered |
| `Scoring.DecimalInjective` | Assets/Scripts/ScoreKeeper.cs:26 | two different scores never show the same text |
| `Scoring.ScoreAfterIsSum` | Assets/Scripts/ScoreKeeper.cs:24-26 | with non-negative points and no overflow, a run of Score calls adds exactly the total and the score never decreases along the way |
| `Scoring.ScoreKeeper.constructor` | Assets/Scripts/ScoreKeeper.cs:8 | the score starts at 0 |
| `Scoring.ScoreKeeper.Start` | Assets/Scripts/ScoreKeeper.cs:12-17 | Start resets the score to 0, then displays "0" |
| `Scoring.ScoreKeeper.Score` | Assets/Scripts/ScoreKeeper.cs:24-27 | the score becomes the wrapped sum, which is exactly old score + points and not smaller when there is no overflow; the text is the decimal form of the new score |
| `Scoring.ScoreKeeper.Reset` | Assets/Scripts/ScoreKeeper.cs:29-32 | the score becomes 0 and the text is left as it was |
| `Scoring.ScoreSequence` | Assets/Scripts/ScoreKeeper.cs:24-31 | after Reset, scoring 100, 150 and 200 gives 450, shown as "450" |
| `Enemies.FiringExtremes` | Assets/Entities/Enemy/EnemyController.cs:25-31 | for a draw in [0,1]: a frame of zero length never fires; once shotsPerSeconds·dt > 1 every draw fires; at exactly 1 every draw but 1.0 fires |
| `Enemies.EnemyController.constructor` | Assets/Entities/Enemy/EnemyController.cs:7-10 | the enemy holds the given health, beam speed, firing rate and score value and is not destroyed |
| `Enemies.EnemyController.Default` | Assets/Entities/Enemy/EnemyController.cs:7-10 | default health 150, beam speed 10, 0.5 shots per second, score value 150 |
| `Enemies.EnemyController.Update` | Assets/Entities/Enemy/EnemyController.cs:23-32 | the enemy fires iff the random value < shotsPerSeconds·deltaTime (`ShouldFire`) |
| `Enemies.EnemyController.OnTriggerEnter2D` | Assets/Entities/Enemy/EnemyController.cs:50-65 | a beam lowers health by exactly its damage and is always destroyed; the enemy dies iff health is then ≤ 0, and dying adds scoreValue to the score and shows the new score as text; a collider without a beam changes nothing |
| `Enemies.EnemyController.Die` | Assets/Entities/Enemy/EnemyController.cs:67-73 | the enemy is destroyed and exactly scoreValue is added to the score, whose text is updated |
| `Enemies.TwoDefaultHits` | Assets/Entities/Enemy/EnemyController.cs:57-63 | with defaults, the first hit leaves 50 (alive) and the second −50 (dies, 150 points scored) |
| `Players.PlayerController.constructor` | Assets/Entities/Player/PlayerController.cs:6-17 | the ship holds the given speed, padding, firing rate and health and is not firing |
| `Players.PlayerController.Start` | Assets/Entities/Player/PlayerController.cs:20-31 | xMin = leftmost + padding and xMax = rightmost − padding |
| `Players.PlayerController.Update` | Assets/Entities/Player/PlayerController.cs:48-83 | key-up stops repeating fire, key-down alone adds a fire schedule; Left moves by −speed·dt and wins over Right, Right alone moves by +speed·dt; x is then clamped, so it lies in [xMin, xMax] when xMin ≤ xMax; y and z are unchanged |
| `Players.PlayerController.OnTriggerEnter2D` | Assets/Entities/Player/PlayerController.cs:86-100 | a beam lowers health by exactly its damage and is always destroyed; the player dies iff health is then ≤ 0, and dying requests "Win Screen"; position, fire state and bounds are kept; a collider without a beam changes nothing |
| `Players.PlayerController.Die` | Assets/Entities/Player/PlayerController.cs:103-107 | "Win Screen" is requested and the ship is destroyed; health, position, fire state and bounds are kept |
| `Players.FireOnThenOff` | Assets/Entities/Player/PlayerController.cs:54-61 | fire is on after a key-down frame, off after a key-up frame, and off when both occur in one frame |
| `Formations.FirstFree` | Assets/Entities/EnemyFormation/FormationController.cs:98-109 | the result is an empty slot with every earlier slot occupied, or none when every slot is occupied |
| `Formations.FirstFreeIffHasFree` | Assets/Entities/EnemyFormation/FormationController.cs:98-109 | the search finds a slot iff some slot is empty |
| `Formations.OccupiedBounds` | Assets/Entities/EnemyFormation/FormationController.cs:112-123 | the occupied count is 0 iff every slot is empty, and equals the slot count iff no slot is free |
| `Formations.OccupiedFill` | Assets/Entities/EnemyFormation/FormationController.cs:50-53 | putting an enemy into an empty slot raises the occupied count by one |
| `Formations.SpawnStep` | Assets/Entities/EnemyFormation/FormationController.cs:46-53 | one spawn step on the slot table as a value keeps the slot count, never overwrites an occupied slot, and changes a slot only by putting the new enemy into an empty one (which slot: `SpawnStepFillsFirstFree`) |
| `Formations.SpawnStepFillsFirstFree` | Assets/Entities/EnemyFormation/FormationController.cs:46-53 | a spawn step fills exactly the first free slot, leaves every other slot unchanged, never overwrites an occupied slot, and raises the count by one; with no free slot it changes nothing |
| `Formations.SpawnStepKeepsMembersDistinct` | Assets/Entities/EnemyFormation/FormationController.cs:50-53 | spawning a new enemy keeps every enemy in at most one slot |
| `Formations.WaveFillsInOrder` | Assets/Entities/EnemyFormation/FormationController.cs:44-60 | from n empty slots, step k has filled exactly the first k slots in order; the count rises by one per step; another step is requested iff k < n, so step n schedules nothing |
| `Formations.Heading` | Assets/Entities/EnemyFormation/FormationController.cs:77-89 | a left edge below xMin turns the formation right, whatever the right edge; otherwise a right edge above xMax turns it left; the heading changes only in those cases; when the formation fits, after the frame it heads away from any bound it is past |
| `Formations.EdgesNotBothOut` | Assets/Entities/EnemyFormation/FormationController.cs:85-89 | when the formation fits between the bounds, the two flip conditions never hold together |
| `Formations.FormationController.constructor` | Assets/Entities/EnemyFormation/FormationController.cs:7-14 | all slots empty, moving right, no pending spawn |
| `Formations.FormationController.NextFreePosition` | Assets/Entities/EnemyFormation/FormationController.cs:98-109 | the scan returns the first free slot, or none |
| `Formations.FormationController.AllMembersDead` | Assets/Entities/EnemyFormation/FormationController.cs:112-123 | true iff every slot is empty |
| `Formations.FormationController.SpawnUntilFull` | Assets/Entities/EnemyFormation/FormationController.cs:44-60 | the table becomes one spawn step of the old table with a new enemy; another step is scheduled iff a slot is still free; no enemy is in two slots |
| `Formations.FormationController.Start` | Assets/Entities/EnemyFormation/FormationController.cs:17-31 | the bounds are the viewport edges and the first spawn step runs |
| `Formations.FormationController.OnSpawnTimer` | Assets/Entities/EnemyFormation/FormationController.cs:57-59 | a pending delayed call runs one spawn step |
| `Formations.FormationController.ReleaseSlot` | Assets/Entities/Enemy/EnemyController.cs:70 | the destroyed enemy's slot becomes empty and no other slot changes |
| `Formations.FormationController.Update` | Assets/Entities/EnemyFormation/FormationController.cs:68-95 | x moves by +speed·dt when moving right and −speed·dt otherwise, with y and z unchanged; the heading follows `Heading`; a spawn step runs iff every slot was empty, and only then is a new enemy made |
| `Formations.ThreeSlotWave` | Assets/Entities/EnemyFormation/FormationController.cs:44-60 | with 3 slots, Start and two delayed calls fill all 3; only the last schedules nothing |
| `Formations.OverlappingChains` | Assets/Entities/EnemyFormation/FormationController.cs:92-94 | destroying the only spawned enemy before the delayed call leaves two spawn chains pending |
| `Music.ClipFor` | Assets/Scripts/MusicPlayer.cs:45-62 | index 0 selects the start clip, 5 the end clip, 4 the boss clip, and every other index the game clip: exactly one clip per index, each in both directions |
| `Music.ClipForMatchesTable` | Assets/Scripts/MusicPlayer.cs:45-62 | the selection agrees with a table from build index to track, with the game clip as the default |
| `Music.MusicRegistry.constructor` | Assets/Scripts/MusicPlayer.cs:6 | no instance at first |
| `Music.MusicPlayer.constructor` | Assets/Scripts/MusicPlayer.cs:13 | `music` is unassigned and nothing is registered |
| `Music.MusicPlayer.Start` | Assets/Scripts/MusicPlayer.cs:15-37 | the callback is registered; a later distinct player is destroyed and leaves the instance unchanged; otherwise the player becomes the instance and plays the start clip looping |
| `Music.MusicPlayer.StartCorrected` | Assets/Scripts/MusicPlayer.cs:15-37 | as Start, but only the player that becomes the instance registers, so a registered player always has its audio source |
| `Music.MusicPlayer.OnLoadCallBack` | Assets/Scripts/MusicPlayer.cs:40-72 | the scene's clip is selected and the music loops, has spatialBlend 0 and is playing; without an assigned `music` the callback fails and nothing changes |
| `Music.DuplicateCallbackFails` | Assets/Scripts/MusicPlayer.cs:18-24 | a duplicate player is destroyed but stays subscribed to scene loads without `music`, so its callback fails on the next load |
| `Music.DuplicateIgnoredWhenCorrected` | Assets/Scripts/MusicPlayer.cs:18-34 | with the corrected Start the duplicate is not registered and the instance switches to the game clip |

## Findings

| source | as written | input that shows it | evidently intended | confidence | as-written member | corrected member |
|---|---|---|---|---|---|---|
| Assets/Scripts/MusicPlayer.cs:18 | `Start` registers `OnLoadCallBack` before the duplicate check. A duplicate is then destroyed without ever assigning `music`, but it stays registered. | A second music player starts while an instance exists (for example on returning to the menu scene), and then any scene loads. The duplicate's callback calls `music.Stop()` on an unassigned field. | Only the player that becomes the instance registers the callback. | likely; not executed | `Music.MusicPlayer.Start` (shown by `Music.DuplicateCallbackFails`) | `Music.MusicPlayer.StartCorrected` |

## Left out

- Rendering, physics movement of beams, `Rigidbody2D` velocities and `Instantiate` are not modelled. `Fire` is represented only by the decision to fire (enemy) or by an active fire schedule (player).
- Audio playback is not modelled: `PlayClipAtPoint` sounds, and `Play`/`Stop` beyond the `playing` flag.
- Real time is not modelled. The model does not represent the spawn delay, the repeating-fire period or the first shot's tiny delay. A delayed call is a pending count that the caller delivers.
- Camera `ViewportToWorldPoint` is not modelled: the viewport's left and right x are parameters of `Start`.
- `GameObject.Find` and `GetComponent` lookups are not modelled: the score keeper and the level manager are passed in explicitly.
- Unity's deferred `Destroy` is not modelled. The model has no frame boundary, so `OnTriggerEnter2D` and `Die` can run on a destroyed ship any number of times. Each such hit lowers health again, and for an enemy it adds `scoreValue` again. Unity delivers such a hit only in the frame of the destroy. No lemma states or excludes a repeated death.
- `OnDrawGizmos`, the formation's `height` and the unused `SpawnEnemies` are left out: they only draw or are never called.
- `LevelManager.QuitRequest`, `LevelManagerDupe.cs` and scene loading itself are engine calls. Only the name passed to `LoadLevel` is recorded.
- The `print` in `MusicPlayer.Start` and the `Debug.Log` in `LevelManager.LoadLevel` are left out, as is `DontDestroyOnLoad`. The instance's survival across loads is the model's default.
- IEEE `float` rounding of health, damage and positions is not represented, because these values are `real`s.
- Scoring.ScoreKeeper.Score: promises monotonicity only for non-negative points whose sum fits in 32 bits, because the C# `int` wraps.
