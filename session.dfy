/** The game session: the state a running game keeps (status and counters, the player, the
    enemies, the gold, the loaded level and its current grid) and the operations and timer
    steps that overwrite it. Each timer callback is one atomic method call. */
module Game {
  import opened Types
  import opened Levels
  import opened Rules

  /** The status and counters of a fresh game, before any level is loaded. */
  const InitialState: GameState := GameState(1, 0, StartingLives, Menu, DefaultTimeLimit)

  /** The player of a fresh game. */
  const InitialPlayer: Player := Player(Position(1, 12), Right, false, false, false)

  /** The lives a game starts with. */
  const StartingLives: int := 3

  /** All the fields of a session at one moment. */
  datatype View = View(
    state: GameState,
    player: Player,
    enemies: seq<Enemy>,
    gold: seq<Gold>,
    level: Option<Level>,
    layout: seq<seq<Cell>>)

  /** A consistent session: with no level there is nothing on the board; with one, the
      level is well-formed, the grid has its shape and holds base terrain or holes, and the
      player, every enemy and every gold item stand inside it. */
  ghost predicate Consistent(v: View)
  {
    && (v.level.None? ==> v.enemies == [] && v.gold == [] && v.layout == [])
    && (v.level.Some? ==>
          var w, h := v.level.value.width, v.level.value.height;
          && WellFormed(v.level.value)
          && IsGrid(v.layout, w, h)
          && (forall y, x :: 0 <= y < h && 0 <= x < w ==> IsBaseTerrain(v.layout[y][x]) || v.layout[y][x] == Trap)
          && InBounds(v.player.position, w, h)
          && (forall i :: 0 <= i < |v.enemies| ==> InBounds(v.enemies[i].position, w, h))
          && (forall i :: 0 <= i < |v.gold| ==> InBounds(v.gold[i].position, w, h)))
  }

  /** A freshly loaded well-formed level, with any game state and any player facing and
      flags, is a consistent session. */
  lemma LoadedConsistent(st: GameState, p: Player, lv: Level)
    requires WellFormed(lv)
    ensures Consistent(View(st, p.(position := lv.playerStart), SpawnEnemies(lv.enemies), SpawnGold(lv.gold), Some(lv), lv.layout))
  {
  }

  class Session {
    /** The level table, built once when the session is created. */
    const levels: seq<Level>
    var state: GameState
    var player: Player
    var enemies: seq<Enemy>
    var gold: seq<Gold>
    var level: Option<Level>
    var layout: seq<seq<Cell>>

    function Snapshot(): View
      reads this
    {
      View(state, player, enemies, gold, level, layout)
    }

    /** The session's consistency (see Consistent), over a proper level table. */
    ghost predicate Valid()
      reads this
    {
      Consistent(Snapshot()) && IsTable(levels)
    }

    /** Lives never exceed the starting three, never go negative, and a game that is not
        over has at least one left. */
    ghost predicate LivesOk()
      reads this
    {
      0 <= state.lives <= StartingLives && (state.gameStatus != GameOver ==> state.lives >= 1)
    }

    /** A session on the main menu: no level loaded. */
    constructor()
      ensures levels == Catalog()
      ensures Snapshot() == View(InitialState, InitialPlayer, [], [], None, [])
      ensures Valid() && LivesOk()
    {
      var table := BuildLevels();
      CatalogIsTable();
      levels := table;
      state := InitialState;
      player := InitialPlayer;
      enemies := [];
      gold := [];
      level := None;
      layout := [];
    }

    /** Load level `id`: an id outside the table changes nothing; otherwise the level, a
        fresh copy of its grid, its enemies and gold with fresh ids, the player on its start
        cell, its time limit and the playing status. Score and lives carry over. */
    method LoadLevel(id: int)
      requires IsTable(levels)
      modifies this
      ensures !(1 <= id <= |levels|) ==> Snapshot() == old(Snapshot())
      ensures 1 <= id <= |levels| ==>
        var lv := levels[id - 1];
        Snapshot() == View(
          old(state).(currentLevel := id, timeRemaining := lv.timeLimit, gameStatus := Playing),
          old(player).(position := lv.playerStart),
          SpawnEnemies(lv.enemies), SpawnGold(lv.gold), Some(lv), lv.layout)
      ensures 1 <= id <= |levels| || old(Valid()) ==> Valid()
      ensures old(LivesOk()) && old(state.gameStatus) != GameOver ==> LivesOk()
    {
      TableLookup(levels, id);
      var found := FindById(levels, id);
      if found.Some? {
        var lv := found.value;
        level := Some(lv);
        layout := lv.layout;
        player := player.(position := lv.playerStart);
        enemies := SpawnEnemies(lv.enemies);
        gold := SpawnGold(lv.gold);
        state := state.(currentLevel := id, timeRemaining := lv.timeLimit, gameStatus := Playing);
        LoadedConsistent(state, old(player), lv);
      }
    }

    /** A new game: fresh counters and player, then level 1. */
    method StartNewGame()
      requires Valid()
      modifies this
      ensures var lv := levels[0];
        Snapshot() == View(GameState(1, 0, StartingLives, Playing, lv.timeLimit), InitialPlayer.(position := lv.playerStart),
                           SpawnEnemies(lv.enemies), SpawnGold(lv.gold), Some(lv), lv.layout)
      ensures Valid() && LivesOk()
    {
      state := InitialState;
      player := InitialPlayer;
      LoadLevel(1);
    }

    /** Advance to the following level, unless the last one is loaded. */
    method NextLevel()
      requires Valid()
      modifies this
      ensures !(0 <= old(state.currentLevel) < LastLevelId) ==> Snapshot() == old(Snapshot())
      ensures 0 <= old(state.currentLevel) < LastLevelId ==>
        var lv := levels[old(state.currentLevel)];
        && lv.id == old(state.currentLevel) + 1
        && Snapshot() == View(
             old(state).(currentLevel := lv.id, timeRemaining := lv.timeLimit, gameStatus := Playing),
             old(player).(position := lv.playerStart),
             SpawnEnemies(lv.enemies), SpawnGold(lv.gold), Some(lv), lv.layout)
      ensures Valid()
      ensures old(LivesOk()) && old(state.gameStatus) != GameOver ==> LivesOk()
    {
      if state.currentLevel < LastLevelId {
        LoadLevel(state.currentLevel + 1);
      }
    }

    /** Pause a game being played; resume from any other status. */
    method TogglePause()
      requires Valid()
      modifies this
      ensures Snapshot() == old(Snapshot()).(state := old(state).(gameStatus := Toggle(old(state.gameStatus))))
      ensures Valid()
      ensures old(LivesOk()) && old(state.gameStatus) != GameOver ==> LivesOk()
    {
      state := state.(gameStatus := Toggle(state.gameStatus));
    }

    /** A movement request from the keyboard. */
    method Move(dir: MoveDirection)
      requires Valid()
      modifies this
      ensures Snapshot() == old(Snapshot()).(player := MovePlayer(old(state.gameStatus), level, layout, old(player), dir))
      ensures Valid() && (old(LivesOk()) ==> LivesOk())
    {
      player := MovePlayer(state.gameStatus, level, layout, player, dir);
    }

    /** One gravity step: only while playing a loaded level. */
    method GravityTick()
      requires Valid()
      modifies this
      ensures old(state.gameStatus) == Playing && old(level).Some? ==>
        Snapshot() == old(Snapshot()).(player := Fall(old(level).value, layout, old(player)))
      ensures !(old(state.gameStatus) == Playing && old(level).Some?) ==> Snapshot() == old(Snapshot())
      ensures Valid() && (old(LivesOk()) ==> LivesOk())
    {
      if state.gameStatus == Playing && level.Some? {
        player := Fall(level.value, layout, player);
      }
    }

    /** One patrol step of every enemy: only while playing a loaded level. */
    method EnemyTick()
      requires Valid()
      modifies this
      ensures old(state.gameStatus) == Playing && old(level).Some? ==>
        Snapshot() == old(Snapshot()).(enemies := PatrolAll(old(level).value, layout, old(enemies)))
      ensures !(old(state.gameStatus) == Playing && old(level).Some?) ==> Snapshot() == old(Snapshot())
      ensures Valid() && (old(LivesOk()) ==> LivesOk())
    {
      if state.gameStatus == Playing && level.Some? {
        enemies := PatrolAll(level.value, layout, enemies);
      }
    }

    /** The collision check: while playing, a live enemy on the player's cell costs a life,
        and a player with lives to spare goes back to the start cell. */
    method CheckCollision()
      requires Valid()
      modifies this
      ensures !(old(state.gameStatus) == Playing && HitsLiveEnemy(enemies, old(player.position))) ==>
        Snapshot() == old(Snapshot())
      ensures old(state.gameStatus) == Playing && HitsLiveEnemy(enemies, old(player.position)) ==>
        && state == LoseLife(old(state))
        && (old(state.lives) > 1 ==> player == old(player).(position := RespawnPoint(level)))
        && (old(state.lives) <= 1 ==> player == old(player))
      ensures enemies == old(enemies) && gold == old(gold) && level == old(level) && layout == old(layout)
      ensures Valid() && (old(LivesOk()) ==> LivesOk())
    {
      if state.gameStatus == Playing && HitsLiveEnemy(enemies, player.position) {
        var livesBefore := state.lives;
        state := LoseLife(state);
        if livesBefore > 1 {
          player := player.(position := RespawnPoint(level));
        }
      }
    }

    /** The gold check after the player moves: every uncollected item on the player's cell is
        taken, and each one taken scores 100. */
    method CollectGold()
      requires Valid()
      modifies this
      ensures Snapshot() == old(Snapshot()).(gold := CollectAt(old(gold), player.position),
        state := old(state).(score := old(state.score) + GoldValue * NewlyCollected(old(gold), player.position)))
      ensures state.score == old(state.score) + GoldValue * (CollectedCount(gold) - CollectedCount(old(gold)))
      ensures Valid() && (old(LivesOk()) ==> LivesOk())
    {
      var taken := NewlyCollected(gold, player.position);
      CollectAtCount(gold, player.position);
      gold := CollectAt(gold, player.position);
      state := state.(score := state.score + GoldValue * taken);
    }

    /** The win check: all gold collected while playing completes the level, or wins the game
        on the last level. */
    method CheckWin()
      requires Valid()
      modifies this
      ensures Snapshot() == old(Snapshot()).(state := Rules.CheckWin(old(state), gold))
      ensures Valid() && (old(LivesOk()) ==> LivesOk())
    {
      state := Rules.CheckWin(state, gold);
    }

    /** One second of the level clock. */
    method CountdownTick()
      requires Valid()
      modifies this
      ensures Snapshot() == old(Snapshot()).(state := Countdown(old(state), level))
      ensures Valid() && (old(LivesOk()) ==> LivesOk())
    {
      state := Countdown(state, level);
    }

    /** A dig request: the brick beside and below the player becomes a hole and the player is
        digging. The hole's position is returned so that the caller can fill it again later;
        None means nothing was dug and nothing changed. */
    method DigBlock(dir: Direction) returns (hole: Option<Position>)
      requires Valid()
      modifies this
      ensures hole == DigTarget(old(state.gameStatus), level, old(layout), player.position, dir)
      ensures hole.None? ==> Snapshot() == old(Snapshot())
      ensures hole.Some? ==>
        && 0 <= hole.value.y < |old(layout)| && 0 <= hole.value.x < |old(layout)[hole.value.y]|
        && Snapshot() == old(Snapshot()).(layout := SetCell(old(layout), hole.value, Trap),
                                         player := old(player).(isDigging := true))
      ensures Valid() && (old(LivesOk()) ==> LivesOk())
    {
      hole := DigTarget(state.gameStatus, level, layout, player.position, dir);
      if hole.Some? {
        layout := SetCell(layout, hole.value, Trap);
        player := player.(isDigging := true);
      }
    }

    /** The delayed refill of a dug hole: brick goes back into that one cell. */
    method RestoreDig(p: Position)
      requires Valid()
      requires 0 <= p.y < |layout| && 0 <= p.x < |layout[p.y]|
      modifies this
      ensures Snapshot() == old(Snapshot()).(layout := SetCell(old(layout), p, Brick))
      ensures Valid() && (old(LivesOk()) ==> LivesOk())
    {
      layout := SetCell(layout, p, Brick);
    }
  }
}
