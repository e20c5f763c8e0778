/** Background music: one player survives scene loads, and on every load it
    picks the clip that belongs to the scene's build index. */
module Music {
  import opened Wrappers

  /** Which of the player's four configured clips is meant. */
  datatype Clip = StartClip | GameClip | BossFight | EndClip

  /** The build indices with a clip of their own. */
  const MenuScene: int := 0
  const BossScene: int := 4
  const EndScene: int := 5

  /** The clip chosen in `OnLoadCallBack` for a scene's build index. */
  function ClipFor(buildIndex: int): (c: Clip)
    ensures c == StartClip <==> buildIndex == MenuScene
    ensures c == BossFight <==> buildIndex == BossScene
    ensures c == EndClip <==> buildIndex == EndScene
    ensures c == GameClip <==> buildIndex !in {MenuScene, BossScene, EndScene}
  {
    if buildIndex == 0 then StartClip
    else if buildIndex == 5 then EndClip
    else if buildIndex == 4 then BossFight
    else GameClip
  }

  /** The same choice written as a table from level to track, with the
      gameplay clip for every index the table does not list. */
  const SceneTracks: map<int, Clip> := map[MenuScene := StartClip, BossScene := BossFight, EndScene := EndClip]

  lemma ClipForMatchesTable(buildIndex: int)
    ensures ClipFor(buildIndex) == if buildIndex in SceneTracks then SceneTracks[buildIndex] else GameClip
  {
  }

  /** The settings of the `AudioSource` the player drives. */
  datatype AudioState = AudioState(clip: Option<Clip>, loop: bool, spatialBlend: real, playing: bool)

  /** The shared `instance` slot (a static field of the C# class). */
  class MusicRegistry {
    var instance: MusicPlayer?

    constructor ()
      ensures instance == null
    {
      instance := null;
    }
  }

  class MusicPlayer {
    /** The `AudioSource` component attached to the player's object. */
    const source: AudioState
    /** The `music` field: `None` until `Start` looks the component up. */
    var music: Option<AudioState>
    /** Whether `OnLoadCallBack` is registered with the scene loader. */
    var subscribed: bool
    /** Set once `Destroy(gameObject)` has been requested. */
    var destroyed: bool

    constructor (source: AudioState)
      ensures this.source == source && music == None && !subscribed && !destroyed
    {
      this.source := source;
      music := None;
      subscribed := false;
      destroyed := false;
    }

    /** `Start`, as written: registers the scene callback, then either
        destroys a duplicate or becomes the instance and starts the menu
        clip looping. The callback is registered in both cases. */
    method Start(registry: MusicRegistry)
      modifies this, registry
      ensures subscribed
      ensures old(registry.instance) != null && old(registry.instance) != this ==>
        destroyed && registry.instance == old(registry.instance) && music == old(music)
      ensures old(registry.instance) == null || old(registry.instance) == this ==>
        && registry.instance == this
        && destroyed == old(destroyed)
        && music == Some(source.(clip := Some(StartClip), loop := true, playing := true))
    {
      subscribed := true;
      if registry.instance != null && registry.instance != this {
        destroyed := true;
      } else {
        registry.instance := this;
        music := Some(source.(clip := Some(StartClip), loop := true, playing := true));
      }
    }

    /** `Start` with the callback registered only by the player that
        becomes the instance: a registered player always has its `music`. */
    method StartCorrected(registry: MusicRegistry)
      modifies this, registry
      ensures old(subscribed ==> music.Some?) ==> (subscribed ==> music.Some?)
      ensures old(registry.instance) != null && old(registry.instance) != this ==>
        destroyed && registry.instance == old(registry.instance)
        && music == old(music) && subscribed == old(subscribed)
      ensures old(registry.instance) == null || old(registry.instance) == this ==>
        && registry.instance == this
        && subscribed
        && destroyed == old(destroyed)
        && music == Some(source.(clip := Some(StartClip), loop := true, playing := true))
    {
      if registry.instance != null && registry.instance != this {
        destroyed := true;
      } else {
        subscribed := true;
        registry.instance := this;
        music := Some(source.(clip := Some(StartClip), loop := true, playing := true));
      }
    }

    /** `OnLoadCallBack` for a scene with the given build index: stops the
        music, selects the scene's clip, makes it 2D and looping, and plays
        it. `ok` is false when `music` was never assigned: the first access
        throws and nothing changes. */
    method OnLoadCallBack(buildIndex: int) returns (ok: bool)
      modifies this
      ensures ok <==> old(music).Some?
      ensures ok ==> music == Some(old(music).value.(clip := Some(ClipFor(buildIndex)), spatialBlend := 0.0, loop := true, playing := true))
      ensures !ok ==> music == old(music)
      ensures subscribed == old(subscribed) && destroyed == old(destroyed)
    {
      if music.None? {
        return false;
      }
      var m := music.value.(playing := false);
      m := m.(clip := Some(ClipFor(buildIndex)));
      m := m.(spatialBlend := 0.0);
      m := m.(loop := true);
      m := m.(playing := true);
      music := Some(m);
      ok := true;
    }
  }

  /** The first player becomes the instance and a second one is destroyed,
      leaving the instance alone; yet the second stays registered without
      `music`, so the next scene load fails in its callback. */
  method DuplicateCallbackFails(source: AudioState)
    returns (firstIsInstance: bool, secondDestroyed: bool, secondSubscribed: bool, secondOk: bool)
    ensures firstIsInstance && secondDestroyed && secondSubscribed && !secondOk
  {
    var registry := new MusicRegistry();
    var first := new MusicPlayer(source);
    var second := new MusicPlayer(source);
    first.Start(registry);
    second.Start(registry);
    firstIsInstance := registry.instance == first;
    secondDestroyed := second.destroyed;
    secondSubscribed := second.subscribed;
    var ok := first.OnLoadCallBack(1);
    secondOk := second.OnLoadCallBack(1);
  }

  /** With the corrected `Start`, the duplicate is not registered, and the
      surviving instance switches to the gameplay clip on the next load. */
  method DuplicateIgnoredWhenCorrected(source: AudioState) returns (secondSubscribed: bool, firstOk: bool, firstClip: Option<Clip>)
    ensures !secondSubscribed && firstOk && firstClip == Some(GameClip)
  {
    var registry := new MusicRegistry();
    var first := new MusicPlayer(source);
    var second := new MusicPlayer(source);
    first.StartCorrected(registry);
    second.StartCorrected(registry);
    secondSubscribed := second.subscribed;
    firstOk := first.OnLoadCallBack(1);
    firstClip := first.music.value.clip;
  }
}
