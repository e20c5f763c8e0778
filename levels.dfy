/** The part of the level manager the player uses: a request to load a
    scene by name. Loading itself is the engine's job and is not modelled;
    the manager records the names it was asked to load, in order. */
module Levels {

  class LevelManager {
    var requests: seq<string>

    constructor ()
      ensures requests == []
    {
      requests := [];
    }

    method LoadLevel(name: string)
      modifies this
      ensures requests == old(requests) + [name]
    {
      requests := requests + [name];
    }
  }
}
