# Gold runner: a verified model of the game core

Gold runner is a grid platform game. The player runs, climbs ladders, hangs from ropes and
digs holes in brick to collect every gold item of a level while guards patrol. There are
100 levels:

- five hand-made levels;
- 95 levels generated from three patterns.

This project models the game's state and rules in Dafny and proves properties about them.

- **Types** (`types.dfy`) holds the data model: positions, directions, cell types, the
  player, enemies, gold, levels and the session status. It also defines `CellAt`, a read of
  a grid cell that gives `None` outside the grid.
- **Text** (`text.dfy`) holds decimal rendering of naturals. This is used for the level
  names `Level n` and for the ids `enemy-i` and `gold-i`. It proves that the rendering denotes
  its number, and so is injective.
- **Levels** (`levels.dfy`) models the level catalog:
  - `CreateLevel` is the template parser, an imperative double loop. It is proved equal to
    the specification function `ParseLevel`.
  - The properties of the parsed grid, spawns and start cell are stated on `ParseLevel`.
  - `GenerateLevel` builds a generated level.
  - `BuildLevels` is the table-building loop, proved to build `Catalog()`.
  - `GetLevelById` and `GetTotalLevels` are the lookups.
- **Rules** (`rules.dfy`) holds the per-entity rules as functions from old values to new:
  - walkability and ground support;
  - the player's movement and gravity;
  - the enemy patrol step;
  - collisions and life loss, gold collection, the win check, the clock, pause, and digging;
  - the spawning of a level's enemies and gold with fresh ids.
- **Game** (`session.dfy`) holds `class Session`. Its fields are the state the game keeps:
  status and counters, player, enemies, gold, loaded level and current grid. The level table
  is a `const` built once by the constructor. Each operation and each timer callback of the
  game is a method that overwrites these fields. Every method:
  - states its new state as a function of the old one;
  - preserves the invariant `Valid()`: the level is well-formed, the grid has its shape, and
    every body stands inside it;
  - preserves, where the game does, the lives invariant `LivesOk()`.

## Model

| member | source | states |
|---|---|---|
| Types.CellAt | src/hooks/useGameState.ts:80 | A grid read yields a cell exactly when the row and the column exist, and then the stored cell; otherwise nothing (undefined). |
| Text.NatToString | src/data/levels.ts:224 | The rendering of n is a non-empty string of decimal digits that denotes n (`Value`). It has one digit exactly when n < 10 and no leading zero otherwise. |
| Text.ValueRoundTrip | src/data/levels.ts:224 | Every digit string with no leading zero is the rendering of the number it denotes, so rendering is onto the canonical numerals. |
| Text.NatToStringInjective | src/hooks/useGameState.ts:44-56 | Different numbers render differently, because the rendering denotes its number. |
| Text.PrefixedInjective | src/hooks/useGameState.ts:44-56 | A fixed prefix followed by a number's rendering determines the number. |
| Levels.SymbolAt | src/data/levels.ts:21 | The template character at column x, or none past the end of a short row. |
| Levels.CellOf | src/data/levels.ts:21-55 | `#` gives concrete, `B` brick, `L` ladder and `R` rope. Every other symbol, and a missing one, gives empty. Each case holds in both directions. |
| Levels.ParseRow | src/data/levels.ts:19-56 | A parsed row has exactly width cells. Cell x is the mapping of symbol x and is base terrain, never a trap or a marker cell. |
| Levels.ParseGrid | src/data/levels.ts:17-57 | The parsed grid is height rows of width cells, and row y is the parse of template row y. |
| Levels.RowMarksExact | src/data/levels.ts:20-52 | The marker scan of a row lists exactly the columns that hold the marker, strictly left to right, each once. |
| Levels.MarksExact | src/data/levels.ts:18-52 | The marker scan of a template lists exactly the cells with x < width that hold the marker, in strictly increasing row-major order. |
| Levels.GoldSpawns | src/data/levels.ts:37 | One uncollected gold spawn per marker position, in the same order. |
| Levels.EnemySpawns | src/data/levels.ts:41-47 | One enemy spawn per marker position, in the same order, facing left, a guard, alive, with respawn timer 0. |
| Levels.ParseLevel | src/data/levels.ts:4-70 | Keeps id, name and time limit. Height is the number of rows and width the length of row 0. The grid has that shape and holds the symbol mapping. |
| Levels.CreateLevel | src/data/levels.ts:4-70 | The looping parser builds exactly `ParseLevel` of its arguments; the time limit defaults to 300. |
| Levels.ScanRow | src/data/levels.ts:20-56 | The inner loop over one row produces its parsed cells. It appends that row's gold and enemy spawns in scan order and leaves the start at the row's last `P`, if any. |
| Levels.ParsedSpawns | src/data/levels.ts:35-48 | Every gold and enemy spawn lies on its marker inside the level. Gold starts uncollected. An enemy starts as a live guard facing left with timer 0. The spawns are in strict row-major order, and every marker in the grid has a spawn. |
| Levels.LastMark | src/data/levels.ts:49-52 | The last entry of a marker scan is a marker inside the scanned box, and no marker comes after it in scan order. An empty scan means the box holds no marker. |
| Levels.ParsedPlayerStart | src/data/levels.ts:15 | With no `P` in the grid the start is (1, height - 2). Otherwise the start is on a `P` inside the level, and no `P` comes after it in scan order. |
| Levels.ParsedWellFormed | src/data/levels.ts:10-15 | A template of at least two rows and two columns parses into a well-formed level: the grid shape, base terrain, and start and spawns inside it. |
| Levels.GenerateLevel | src/data/levels.ts:165-225 | A generated level has the given id and the name `Level id`. Its time limit is 600 - 3·id down to a floor of 180, always between 180 and 600. It is 22 by 14, and its grid is the parse of pattern id mod 3. |
| Levels.GeneratedLevelsCycle | src/data/levels.ts:220-222 | Ids three apart share layout, start and spawns, and the later one never has more time. |
| Levels.GeneratedLayoutsDiffer | src/data/levels.ts:220 | Ids with different residues mod 3 get different layouts. With the cycle lemma: two generated levels share a layout exactly when their ids agree mod 3. |
| Levels.HandMadeLevels | src/data/levels.ts:72-162 | Five levels with ids 1 to 5, names "First Steps" to "Maze Runner", and time limits 180, 240, 300, 360 and 420. |
| Levels.Catalog | src/data/levels.ts:72-230 | 100 levels; entry k has id k + 1; the first five are the hand-made ones and the others are generated. |
| Levels.BuildHandMade | src/data/levels.ts:72-162 | The five parser calls of the table literal build exactly the hand-made levels. |
| Levels.BuildLevels | src/data/levels.ts:228-230 | The hand-made levels followed by one push per generated level, 6 to 100, build exactly the catalog. |
| Levels.FindById | src/data/levels.ts:233 | The lookup finds a member of the list carrying the id, and finds nothing exactly when no entry carries it. |
| Levels.FindByIdFirst | src/data/levels.ts:233 | The level found is the first entry with the id: every entry before it has a different id. |
| Levels.GetLevelById | src/data/levels.ts:232-234 | For ids 1 to 100 the lookup returns catalog entry id - 1, and for every other id nothing. |
| Levels.GetTotalLevels | src/data/levels.ts:236-238 | There are 100 levels. |
| Levels.HandMadeWellFormed | src/data/levels.ts:74-161 | Each of the five hand-made levels is well-formed. |
| Levels.GeneratedWellFormed | src/data/levels.ts:220-224 | Every generated level is well-formed. |
| Levels.TableLookup | src/data/levels.ts:232-234 | In a table whose entry k has id k + 1, finding id gives entry id - 1 for ids in range and nothing otherwise. |
| Levels.CatalogIsTable | src/data/levels.ts:72-230 | The built-in table has 100 entries in id order, all well-formed. |
| Rules.IsWalkable | src/hooks/useGameState.ts:76-82 | Never walkable without a level or outside the width-by-height box. Inside it, walkable exactly on an existing empty, ladder, rope or trap cell. |
| Rules.HasGroundSupport | src/hooks/useGameState.ts:85-96 | Always supported without a level and on or below the bottom row. Above it, supported exactly over brick or concrete or when standing in a ladder or rope. |
| Rules.MovePlayer | src/hooks/useGameState.ts:99-158 | Nothing happens unless playing. Up needs a ladder here and a walkable cell above. Down needs a ladder here or below and a walkable cell below. Sideways needs a walkable target that is supported, or a ladder or rope here. Each rule holds in both directions. An accepted step is one cell to an open in-bounds cell and sets moving. Its ladder flag records whether the cell the player leaves is a ladder, not the cell it reaches. A refused step keeps position and ladder flag and clears moving. Left and right set the facing even when refused. |
| Rules.UpThenDown | src/hooks/useGameState.ts:128-139 | A successful climb up followed by a step down returns the player to the starting cell. |
| Rules.RefusedMoveSettles | src/hooks/useGameState.ts:142-158 | Repeating a refused request changes nothing more. |
| Rules.Fall | src/hooks/useGameState.ts:166-191 | One gravity step never changes the column and drops at most one row. Nothing happens on a ladder or rope. The player drops exactly when unsupported with a walkable in-bounds cell below, and then only position, ladder flag and moving flag change. |
| Rules.BottomRowIsFloor | src/hooks/useGameState.ts:86 | A player on the bottom row never falls. |
| Rules.Patrol | src/hooks/useGameState.ts:202-236 | A dead enemy is unchanged. A live one steps one column forward exactly when the cell ahead is walkable and supported (or it clings to a ladder or rope); otherwise it turns round, never both. It then drops one row exactly when it did not stand on a ladder or rope, is unsupported at its new column, and the cell below is inside the level and walkable. Identity, kind, liveness and timer never change, and an enemy inside the level stays inside. |
| Rules.BoxedEnemyTurnsBack | src/hooks/useGameState.ts:213-221 | A live enemy walled in on both sides on solid ground turns round each step, and two steps restore it exactly. |
| Rules.PatrolAll | src/hooks/useGameState.ts:202 | The enemy step applies the patrol to every enemy, keeping the list's length and order. |
| Rules.HitsLiveEnemy | src/hooks/useGameState.ts:246-250 | True exactly when some live enemy stands on the given cell. |
| Rules.LoseLife | src/hooks/useGameState.ts:253-257 | Lives drop by exactly one. The game is over exactly when the previous lives were at most one, and play goes on otherwise. Level, score and time are kept. |
| Rules.RespawnPoint | src/hooks/useGameState.ts:263 | The restart cell is the level's start, or (1, 12) with no level. |
| Rules.CollectAt | src/hooks/useGameState.ts:271-279 | Every item keeps id and position. An item is collected afterwards exactly when it was already collected or lies on the visited cell, so no item ever reverts. |
| Rules.CollectAtCount | src/hooks/useGameState.ts:271-279 | A visit raises the collected count by exactly the number of uncollected items on the visited cell. |
| Rules.CollectAtIdempotent | src/hooks/useGameState.ts:272-274 | A second visit to the same cell collects nothing and changes nothing. |
| Rules.AllCollectedCount | src/hooks/useGameState.ts:320 | Every item is collected exactly when the collected count equals the number of items. |
| Rules.CheckWin | src/hooks/useGameState.ts:319-328 | With gold present and all collected while playing, the status becomes victory from level 100 on and level complete before. Otherwise nothing changes, and no other field ever does. |
| Rules.ResetTime | src/hooks/useGameState.ts:361 | The time granted after a time-out is the level's limit, or 300 when there is no level or the limit is zero. |
| Rules.Countdown | src/hooks/useGameState.ts:346-364 | Only playing runs the clock. With time left it drops by one second. At zero or below a life is lost (game over exactly when at most one was left) and the clock restarts at the reset time. |
| Rules.CountdownRunsOut | src/hooks/useGameState.ts:347-353 | t ticks from t seconds while playing bring the clock to exactly zero and change nothing else. The next tick costs a life and resets the clock to the level limit. |
| Rules.Toggle | src/hooks/useGameState.ts:338-343 | Playing becomes paused, and every other status becomes playing. |
| Rules.ToggleTwice | src/hooks/useGameState.ts:341 | Pausing and resuming undo each other. |
| Rules.DigTarget | src/hooks/useGameState.ts:283-291 | A dig opens the cell one column to the side and one row down. This happens exactly when playing with a level, the cell lies inside it, and the cell holds brick. |
| Rules.SetCell | src/hooks/useGameState.ts:293-298 | Writing one cell changes exactly that cell, and keeps every other cell and every row's length. |
| Rules.DigThenRestore | src/hooks/useGameState.ts:293-309 | Digging a brick into a trap and restoring brick there gives back the original grid. |
| Rules.SpawnEnemies | src/hooks/useGameState.ts:44-48 | One enemy per spawn, in order, with id `enemy-i` and the spawn's fields. |
| Rules.SpawnGold | src/hooks/useGameState.ts:52-56 | One gold item per spawn, in order, with id `gold-i` and the spawn's fields. |
| Rules.SpawnedIdsDistinct | src/hooks/useGameState.ts:44-56 | The enemy ids handed out by a load are pairwise distinct, and so are the gold ids. |
| Game.LoadedConsistent | src/hooks/useGameState.ts:30-66 | Any freshly loaded well-formed level gives a consistent session. |
| Game.Session.constructor | src/hooks/useGameState.ts:5-27 | The initial state: level 1, score 0, 3 lives, menu, 300 s; the player at (1, 12) facing right. No level, enemies, gold or grid. The table is the catalog. |
| Game.Session.LoadLevel | src/hooks/useGameState.ts:30-66 | An id outside the table changes nothing. Otherwise the session gets that level, its grid, fresh enemies and gold, the start cell and the level's time limit, and starts playing. Score, lives and the other player fields carry over. |
| Game.Session.StartNewGame | src/hooks/useGameState.ts:69-73 | A new game is level 1 with score 0 and 3 lives, playing, with level 1's time limit. The player is the initial player on level 1's start cell. |
| Game.Session.NextLevel | src/hooks/useGameState.ts:331-335 | From levels 0..99 the next level is loaded: the whole new state is given as in `LoadLevel`, keeping score and lives. From 100 or above, or from a negative level, nothing changes. |
| Game.Session.TogglePause | src/hooks/useGameState.ts:338-343 | Only the status changes, by `Toggle`. |
| Game.Session.Move | src/hooks/useGameState.ts:99-160 | Only the player changes, by `MovePlayer`, and the player stays inside the level. |
| Game.Session.GravityTick | src/hooks/useGameState.ts:163-195 | While playing a loaded level only the player changes, by `Fall`. Otherwise nothing changes. |
| Game.Session.EnemyTick | src/hooks/useGameState.ts:198-240 | While playing a loaded level only the enemies change, each by `Patrol`. Otherwise nothing changes. |
| Game.Session.CheckCollision | src/hooks/useGameState.ts:243-267 | While playing, a live enemy on the player's cell costs a life by `LoseLife`. With more than one life before, the player returns to the restart cell. Otherwise nothing changes. |
| Game.Session.CollectGold | src/hooks/useGameState.ts:270-280 | The gold is updated by `CollectAt`. The score rises by 100 for each item collected now, which equals 100 times the rise in the collected count. |
| Game.Session.CheckWin | src/hooks/useGameState.ts:319-328 | Only the status changes, by `Rules.CheckWin`. |
| Game.Session.CountdownTick | src/hooks/useGameState.ts:346-364 | Only the counters change, by `Countdown`. |
| Game.Session.DigBlock | src/hooks/useGameState.ts:283-316 | It returns the dig target. When there is one, that cell becomes a trap and the player is digging. Otherwise nothing changes. |
| Game.Session.RestoreDig | src/hooks/useGameState.ts:303-310 | Brick is written back into exactly the given cell, and nothing else changes. |

Every session method above preserves `Valid()`. Collision, countdown and the other ticks
preserve `LivesOk()`: lives stay within 0..3, and a game that is not over has at least one.
`LoadLevel`, `NextLevel` and `TogglePause` preserve it when the game was not over before the
call. Resuming or loading from game over keeps the lives at zero. The keyboard and the
screens only offer those actions while playing, paused, on the menu or after completing a
level.

## Left out

- Timing and scheduling. The 200 ms gravity, 300 ms enemy and 1 s clock intervals, the 5 s
  dig refill and React's effect re-running are not modelled. Each callback is one atomic
  method call made by the environment. Races between callbacks and stale closure values are
  outside the model, for example the collision check reading the rendered lives.
- `Game.Session.RestoreDig`: requires the cell to exist in the current grid. Refills
  scheduled before a level change are not cancelled in the game. They may hit a grid they
  were not meant for, and outside the grid the game would extend or fail on the row.
- `Game.Session.DigBlock`: the 500 ms reset of the digging flag is not modelled. The flag is
  set and nothing clears it.
- The unused difficulty multiplier of generated levels.
- `Game.Session.CollectGold`: the score rises once per collected
  item, as the state updater does. Updaters run twice under development-mode double
  invocation, which is not modelled.
- `Levels.ParseLevel`: requires a template with at least one row. The game reads the first
  row's length and would throw on an empty template. Every template the game parses has 14
  rows.
- `Levels.CreateLevel`: requires a template with at least one row, for the same reason.
- `Levels.GenerateLevel`: takes a natural id. The game only calls it for ids 6..100.
- Rendering, menus, the level-select screen, high-score persistence in local storage, and
  keyboard event plumbing. These are user interface and browser I/O. The restart button
  only dispatches onto `LoadLevel` or `StartNewGame`.
- The `GameConfig` record, which nothing uses.
- Text encoding. Template rows are sequences of characters here. The game measures and
  indexes them in UTF-16 code units. Every template is ASCII, so the two agree on every level.
- The cell types gold, enemy and player, which exist in the data model but never occur in a
  parsed or dug grid.
