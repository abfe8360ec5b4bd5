/**
  The level sequence of code/level_handler.py: a fixed list of two levels
  and an index into it that advances cyclically. Loading a level is the
  sequence of assignments it makes to the game's map, its NPC containers
  and the player's position; rebuilding the world map from the layout and
  spawning the NPCs are done by collaborators outside the model, and a
  spawn request is recorded instead.
*/
module Levels {

  /** The two layouts of map.py, by name. */
  datatype Layout = Level1Map | Level2Map

  datatype Level = Level(layout: Layout, enemyCount: nat, playerPos: (real, real))

  /** A map cell (column, row), as the world map and the NPC positions key it. */
  type Tile = (int, int)

  /** The part of the game a level load writes to. */
  class World {
    var miniMap: Layout
    var worldMap: map<Tile, int>
    var npcList: seq<Tile>
    var npcPositions: set<Tile>
    var spawnRequests: seq<nat>
    var playerX: real
    var playerY: real

    constructor (layout: Layout)
      ensures miniMap == layout && worldMap == map[] && npcList == [] && npcPositions == {}
      ensures spawnRequests == [] && playerX == 0.0 && playerY == 0.0
    {
      miniMap := layout;
      worldMap := map[];
      npcList := [];
      npcPositions := {};
      spawnRequests := [];
      playerX := 0.0;
      playerY := 0.0;
    }
  }

  const LevelList := [Level(Level1Map, 10, (1.5, 1.5)), Level(Level2Map, 15, (2.5, 2.5))]

  class LevelHandler {
    const game: World
    const levels: seq<Level>
    var currentLevel: int

    /** The level index always points into the list of levels. */
    predicate Valid()
      reads this
    {
      |levels| > 0 && 0 <= currentLevel < |levels|
    }

    /** Two levels, starting at the first. */
    constructor (game: World)
      ensures this.game == game && levels == LevelList && currentLevel == 0
      ensures Valid()
    {
      this.game := game;
      levels := LevelList;
      currentLevel := 0;
    }

    /**
      Points the map at the current level's layout, clears the world map and
      both NPC containers, asks for exactly the level's enemy count, and puts
      the player at the level's start position. The level index is kept.
    */
    method LoadLevel()
      requires Valid()
      modifies game
      ensures var level := levels[currentLevel];
        && game.miniMap == level.layout
        && game.worldMap == map[]
        && game.npcList == [] && game.npcPositions == {}
        && game.spawnRequests == old(game.spawnRequests) + [level.enemyCount]
        && (game.playerX, game.playerY) == level.playerPos
    {
      var level := levels[currentLevel];
      game.miniMap := level.layout;
      game.worldMap := map[];
      game.npcList := [];
      game.npcPositions := {};
      game.spawnRequests := game.spawnRequests + [level.enemyCount];
      game.playerX, game.playerY := level.playerPos.0, level.playerPos.1;
    }

    /** Advances to the next level, wrapping from the last to the first, and loads it. */
    method NextLevel()
      requires Valid()
      modifies this, game
      ensures Valid()
      ensures currentLevel == NextIndex(old(currentLevel), |levels|)
      ensures game.miniMap == levels[currentLevel].layout
      ensures (game.playerX, game.playerY) == levels[currentLevel].playerPos
      ensures game.worldMap == map[]
      ensures game.npcList == [] && game.npcPositions == {}
      ensures game.spawnRequests == old(game.spawnRequests) + [levels[currentLevel].enemyCount]
    {
      currentLevel := NextIndex(currentLevel, |levels|);
      LoadLevel();
    }

    /** Loads the current level again; the level index does not change. */
    method RestartLevel()
      requires Valid()
      modifies game
      ensures currentLevel == old(currentLevel)
      ensures game.miniMap == levels[currentLevel].layout
      ensures (game.playerX, game.playerY) == levels[currentLevel].playerPos
      ensures game.worldMap == map[]
      ensures game.npcList == [] && game.npcPositions == {}
      ensures game.spawnRequests == old(game.spawnRequests) + [levels[currentLevel].enemyCount]
    {
      LoadLevel();
    }
  }

  /**
    Successor of a level index in a cycle of n levels, (i + 1) % n: the next
    index, or the first after the last.
  */
  function NextIndex(i: int, n: nat): (j: int)
    requires n > 0 && 0 <= i < n
    ensures 0 <= j < n
    ensures i < n - 1 ==> j == i + 1
    ensures i == n - 1 ==> j == 0
  {
    (i + 1) % n
  }
}
