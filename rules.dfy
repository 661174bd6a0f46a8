/** The per-entity rules of a running session: where bodies may stand, how the player
    moves and falls, how enemies patrol, and what collisions, gold, the clock, pausing
    and digging do to the state. Every rule is a function from the old values to the new. */
module Rules {
  import opened Types
  import opened Text

  /** The last level id; reaching it ends the game in victory rather than a level complete. */
  const LastLevelId: int := 100

  /** The score one gold item is worth. */
  const GoldValue: int := 100

  /** The time limit used when a level gives none (a zero limit counts as none). */
  const DefaultTimeLimit: int := 300

  /** Where a player restarts after losing a life when no level is loaded. */
  const FallbackStart: Position := Position(1, 12)

  // ---------------------------------------------------------------------------
  // Terrain
  // ---------------------------------------------------------------------------

  /** Cells a body may enter: air, ladders, ropes and dug holes. */
  predicate IsOpen(c: Cell)
  {
    c == Empty || c == Ladder || c == Rope || c == Trap
  }

  /** Cells that hold up whatever stands on top of them. */
  predicate IsSolid(c: Cell)
  {
    c == Brick || c == Concrete
  }

  /** Cells a body clings to instead of falling. */
  predicate IsClimbable(c: Option<Cell>)
  {
    c == Some(Ladder) || c == Some(Rope)
  }

  /** Whether a body may stand at (x, y): only with a level loaded, only inside its
      width-by-height box, and only on an open cell of the current grid. */
  function IsWalkable(lv: Option<Level>, layout: seq<seq<Cell>>, x: int, y: int): (b: bool)
    ensures lv.None? ==> !b
    ensures lv.Some? && !InBounds(Position(x, y), lv.value.width, lv.value.height) ==> !b
    ensures b ==> CellAt(layout, x, y).Some? && IsOpen(CellAt(layout, x, y).value)
    ensures (lv.Some? && InBounds(Position(x, y), lv.value.width, lv.value.height)
             && CellAt(layout, x, y).Some? && IsOpen(CellAt(layout, x, y).value)) ==> b
  {
    if lv.None? || x < 0 || x >= lv.value.width || y < 0 || y >= lv.value.height then false
    else
      match CellAt(layout, x, y)
      case None => false
      case Some(c) => c == Empty || c == Ladder || c == Rope || c == Trap
  }

  /** Whether a body at (x, y) is held up: always without a level and on or below the
      bottom row; otherwise by a solid cell underneath or by clinging to a ladder or rope. */
  function HasGroundSupport(lv: Option<Level>, layout: seq<seq<Cell>>, x: int, y: int): (b: bool)
    ensures lv.None? ==> b
    ensures lv.Some? && y >= lv.value.height - 1 ==> b
    ensures CellAt(layout, x, y + 1).Some? && IsSolid(CellAt(layout, x, y + 1).value) ==> b
    ensures IsClimbable(CellAt(layout, x, y)) ==> b
    ensures b && lv.Some? && y < lv.value.height - 1 ==>
      IsClimbable(CellAt(layout, x, y)) || (CellAt(layout, x, y + 1).Some? && IsSolid(CellAt(layout, x, y + 1).value))
  {
    if lv.None? || y >= lv.value.height - 1 then true
    else
      var below := CellAt(layout, x, y + 1);
      var here := CellAt(layout, x, y);
      below == Some(Brick) || below == Some(Concrete) || here == Some(Ladder) || here == Some(Rope)
  }

  // ---------------------------------------------------------------------------
  // Player movement
  // ---------------------------------------------------------------------------

  /** The cell one step from p in a movement direction. */
  function Step(p: Position, dir: MoveDirection): Position
  {
    match dir
    case MoveLeft => Position(p.x - 1, p.y)
    case MoveRight => Position(p.x + 1, p.y)
    case MoveUp => Position(p.x, p.y - 1)
    case MoveDown => Position(p.x, p.y + 1)
  }

  /** The movement rule for one step. */
  predicate CanMove(lv: Option<Level>, layout: seq<seq<Cell>>, p: Position, dir: MoveDirection)
  {
    var here := CellAt(layout, p.x, p.y);
    var t := Step(p, dir);
    match dir
    case MoveUp => here == Some(Ladder) && IsWalkable(lv, layout, t.x, t.y)
    case MoveDown => (here == Some(Ladder) || CellAt(layout, t.x, t.y) == Some(Ladder)) && IsWalkable(lv, layout, t.x, t.y)
    case _ => IsWalkable(lv, layout, t.x, t.y) && (HasGroundSupport(lv, layout, t.x, t.y) || IsClimbable(here))
  }

  /** The player after a movement request. Nothing happens unless the game is being played.
      Up needs a ladder here; down needs a ladder here or below; sideways needs a standing
      place or a ladder or rope to leave from; every move needs a walkable target. Left and
      right turn the player even when the step is refused. */
  function MovePlayer(status: Status, lv: Option<Level>, layout: seq<seq<Cell>>, p: Player, dir: MoveDirection): (q: Player)
    ensures status != Playing ==> q == p
    ensures q.isDigging == p.isDigging
    ensures q.position == p.position || q.position == Step(p.position, dir)
    // an accepted step ends on an open cell inside the level
    ensures q.position != p.position ==>
      && lv.Some? && InBounds(q.position, lv.value.width, lv.value.height)
      && CellAt(layout, q.position.x, q.position.y).Some? && IsOpen(CellAt(layout, q.position.x, q.position.y).value)
    // the acceptance rule of each direction (both ways)
    ensures status == Playing && dir == MoveUp ==>
      (q.position != p.position <==>
         CellAt(layout, p.position.x, p.position.y) == Some(Ladder)
         && IsWalkable(lv, layout, p.position.x, p.position.y - 1))
    ensures status == Playing && dir == MoveDown ==>
      (q.position != p.position <==>
         (CellAt(layout, p.position.x, p.position.y) == Some(Ladder)
          || CellAt(layout, p.position.x, p.position.y + 1) == Some(Ladder))
         && IsWalkable(lv, layout, p.position.x, p.position.y + 1))
    ensures status == Playing && (dir == MoveLeft || dir == MoveRight) ==>
      var tx := if dir == MoveLeft then p.position.x - 1 else p.position.x + 1;
      (q.position != p.position <==>
         IsWalkable(lv, layout, tx, p.position.y)
         && (HasGroundSupport(lv, layout, tx, p.position.y) || IsClimbable(CellAt(layout, p.position.x, p.position.y))))
    // the flags an accepted or refused request leaves behind
    ensures status == Playing ==> (q.isMoving <==> q.position != p.position)
    ensures status == Playing && q.position != p.position ==>
      q.isOnLadder == (CellAt(layout, p.position.x, p.position.y) == Some(Ladder))
    ensures status == Playing && q.position == p.position ==> q.isOnLadder == p.isOnLadder
    // facing
    ensures status == Playing && dir == MoveLeft ==> q.direction == Left
    ensures status == Playing && dir == MoveRight ==> q.direction == Right
    ensures dir == MoveUp || dir == MoveDown ==> q.direction == p.direction
  {
    if status != Playing then p
    else
      var facing := match dir
        case MoveLeft => Left
        case MoveRight => Right
        case _ => p.direction;
      if CanMove(lv, layout, p.position, dir) then
        p.(position := Step(p.position, dir), direction := facing,
           isOnLadder := CellAt(layout, p.position.x, p.position.y) == Some(Ladder), isMoving := true)
      else
        p.(direction := facing, isMoving := false)
  }

  /** Climbing up a ladder and straight back down returns the player to where they were. */
  lemma UpThenDown(lv: Option<Level>, layout: seq<seq<Cell>>, p: Player)
    requires lv.Some? && InBounds(p.position, lv.value.width, lv.value.height)
    requires MovePlayer(Playing, lv, layout, p, MoveUp).position != p.position
    ensures MovePlayer(Playing, lv, layout, MovePlayer(Playing, lv, layout, p, MoveUp), MoveDown).position == p.position
  {
    var q := MovePlayer(Playing, lv, layout, p, MoveUp);
    assert q.position == Position(p.position.x, p.position.y - 1);
    assert CellAt(layout, q.position.x, q.position.y + 1) == Some(Ladder);
    assert IsWalkable(lv, layout, q.position.x, q.position.y + 1);
  }

  /** A refused request, repeated, changes nothing more. */
  lemma RefusedMoveSettles(status: Status, lv: Option<Level>, layout: seq<seq<Cell>>, p: Player, dir: MoveDirection)
    requires MovePlayer(status, lv, layout, p, dir).position == p.position
    ensures var q := MovePlayer(status, lv, layout, p, dir); MovePlayer(status, lv, layout, q, dir) == q
  {
    var q := MovePlayer(status, lv, layout, p, dir);
    if status == Playing {
      assert CellAt(layout, q.position.x, q.position.y) == CellAt(layout, p.position.x, p.position.y);
      assert !CanMove(lv, layout, q.position, dir);
    }
  }

  // ---------------------------------------------------------------------------
  // Gravity
  // ---------------------------------------------------------------------------

  /** The player after one gravity step in a loaded level: nothing on a ladder or rope;
      otherwise an unsupported player drops one row into a walkable cell, if there is one. */
  function Fall(lv: Level, layout: seq<seq<Cell>>, p: Player): (q: Player)
    ensures q.position.x == p.position.x
    ensures q.position.y == p.position.y || q.position.y == p.position.y + 1
    ensures IsClimbable(CellAt(layout, p.position.x, p.position.y)) ==> q == p
    ensures q.position.y == p.position.y + 1 <==>
      && !IsClimbable(CellAt(layout, p.position.x, p.position.y))
      && !HasGroundSupport(Some(lv), layout, p.position.x, p.position.y)
      && p.position.y + 1 < lv.height
      && IsWalkable(Some(lv), layout, p.position.x, p.position.y + 1)
    ensures q.position.y == p.position.y + 1 ==>
      q == p.(position := q.position, isOnLadder := false, isMoving := true)
      && InBounds(q.position, lv.width, lv.height)
    ensures q.position.y == p.position.y ==> q == p
  {
    var here := CellAt(layout, p.position.x, p.position.y);
    if here == Some(Ladder) || here == Some(Rope) then p
    else if !HasGroundSupport(Some(lv), layout, p.position.x, p.position.y)
            && p.position.y + 1 < lv.height && IsWalkable(Some(lv), layout, p.position.x, p.position.y + 1) then
      p.(position := Position(p.position.x, p.position.y + 1), isOnLadder := false, isMoving := true)
    else p
  }

  /** A player standing on the bottom row never falls. */
  lemma BottomRowIsFloor(lv: Level, layout: seq<seq<Cell>>, p: Player)
    requires p.position.y == lv.height - 1
    ensures Fall(lv, layout, p) == p
  {
    assert HasGroundSupport(Some(lv), layout, p.position.x, p.position.y);
  }

  // ---------------------------------------------------------------------------
  // Enemy patrol
  // ---------------------------------------------------------------------------

  function Flip(d: Direction): Direction
  {
    if d == Left then Right else Left
  }

  /** The column an enemy facing d steps to from column x. */
  function Ahead(x: int, d: Direction): int
  {
    if d == Left then x - 1 else x + 1
  }

  /** An enemy after one patrol step: dead enemies stay as they are. A live one steps
      forward when the cell ahead is walkable and it is held up there (or clings to a ladder
      or rope where it stood), and otherwise turns round; then, unless it stood on a ladder
      or rope, it drops one row when unsupported and the cell below is walkable. */
  function Patrol(lv: Level, layout: seq<seq<Cell>>, e: Enemy): (f: Enemy)
    ensures !e.isAlive ==> f == e
    ensures f.id == e.id && f.kind == e.kind && f.isAlive == e.isAlive && f.respawnTimer == e.respawnTimer
    // a live enemy steps forward or turns round, never both
    ensures e.isAlive ==>
      (f.position.x == Ahead(e.position.x, e.direction) && f.direction == e.direction)
      || (f.position.x == e.position.x && f.direction == Flip(e.direction))
    ensures e.isAlive ==>
      (f.position.x != e.position.x <==>
         IsWalkable(Some(lv), layout, Ahead(e.position.x, e.direction), e.position.y)
         && (HasGroundSupport(Some(lv), layout, Ahead(e.position.x, e.direction), e.position.y)
             || IsClimbable(CellAt(layout, e.position.x, e.position.y))))
    // then it drops at most one row, never from a ladder or rope, and only into a walkable cell
    ensures f.position.y == e.position.y || f.position.y == e.position.y + 1
    ensures IsClimbable(CellAt(layout, e.position.x, e.position.y)) ==> f.position.y == e.position.y
    ensures f.position.y != e.position.y ==>
      !HasGroundSupport(Some(lv), layout, f.position.x, e.position.y)
      && IsWalkable(Some(lv), layout, f.position.x, f.position.y)
    // and it does drop whenever those conditions hold and the row below is in the level
    ensures e.isAlive ==>
      (f.position.y == e.position.y + 1 <==>
         !IsClimbable(CellAt(layout, e.position.x, e.position.y))
         && !HasGroundSupport(Some(lv), layout, f.position.x, e.position.y)
         && e.position.y + 1 < lv.height
         && IsWalkable(Some(lv), layout, f.position.x, e.position.y + 1))
    // every cell it moves into lies inside the level
    ensures InBounds(e.position, lv.width, lv.height) ==> InBounds(f.position, lv.width, lv.height)
  {
    if !e.isAlive then e
    else
      var here := CellAt(layout, e.position.x, e.position.y);
      var nextX := Ahead(e.position.x, e.direction);
      var forward := IsWalkable(Some(lv), layout, nextX, e.position.y)
        && (HasGroundSupport(Some(lv), layout, nextX, e.position.y) || here == Some(Ladder) || here == Some(Rope));
      var x := if forward then nextX else e.position.x;
      var d := if forward then e.direction else Flip(e.direction);
      var y := if here != Some(Ladder) && here != Some(Rope) && !HasGroundSupport(Some(lv), layout, x, e.position.y)
                  && e.position.y + 1 < lv.height && IsWalkable(Some(lv), layout, x, e.position.y + 1)
               then e.position.y + 1 else e.position.y;
      e.(position := Position(x, y), direction := d)
  }

  /** A live enemy boxed in on both sides, standing on solid ground, turns round every step
      and so paces on the spot: two steps bring it back to where and how it started. */
  lemma BoxedEnemyTurnsBack(lv: Level, layout: seq<seq<Cell>>, e: Enemy)
    requires e.isAlive && !IsClimbable(CellAt(layout, e.position.x, e.position.y))
    requires !IsWalkable(Some(lv), layout, e.position.x - 1, e.position.y)
    requires !IsWalkable(Some(lv), layout, e.position.x + 1, e.position.y)
    requires HasGroundSupport(Some(lv), layout, e.position.x, e.position.y)
    ensures Patrol(lv, layout, Patrol(lv, layout, e)) == e
  {
    var f := Patrol(lv, layout, e);
    assert f.position == e.position && f.direction == Flip(e.direction);
  }

  /** Patrolling every enemy of a list, in order. */
  function PatrolAll(lv: Level, layout: seq<seq<Cell>>, es: seq<Enemy>): (r: seq<Enemy>)
    ensures |r| == |es|
    ensures forall i :: 0 <= i < |es| ==> r[i] == Patrol(lv, layout, es[i])
  {
    seq(|es|, i requires 0 <= i < |es| => Patrol(lv, layout, es[i]))
  }

  // ---------------------------------------------------------------------------
  // Collisions and lives
  // ---------------------------------------------------------------------------

  /** Whether some live enemy stands at pos. */
  function HitsLiveEnemy(es: seq<Enemy>, pos: Position): (b: bool)
    ensures b <==> exists i :: 0 <= i < |es| && es[i].isAlive && es[i].position == pos
  {
    if es == [] then false
    else (es[0].isAlive && es[0].position == pos) || HitsLiveEnemy(es[1..], pos)
  }

  /** The game state after losing a life: one life fewer, and the game is over exactly when
      the life lost was the last one; otherwise play goes on. */
  function LoseLife(st: GameState): (r: GameState)
    ensures r.lives == st.lives - 1
    ensures r.gameStatus == GameOver <==> st.lives <= 1
    ensures r.gameStatus != GameOver ==> r.gameStatus == Playing
    ensures r.currentLevel == st.currentLevel && r.score == st.score && r.timeRemaining == st.timeRemaining
  {
    st.(lives := st.lives - 1, gameStatus := if st.lives <= 1 then GameOver else Playing)
  }

  /** Where a player hit by an enemy restarts: the level's start, or a fixed cell when no
      level is loaded. */
  function RespawnPoint(lv: Option<Level>): (p: Position)
    ensures lv.Some? ==> p == lv.value.playerStart
    ensures lv.None? ==> p == FallbackStart
  {
    match lv
    case Some(l) => l.playerStart
    case None => FallbackStart
  }

  // ---------------------------------------------------------------------------
  // Gold
  // ---------------------------------------------------------------------------

  /** The gold list after the player reaches pos: every uncollected item there is taken. */
  function CollectAt(gold: seq<Gold>, pos: Position): (r: seq<Gold>)
    ensures |r| == |gold|
    ensures forall i :: 0 <= i < |gold| ==>
      r[i].id == gold[i].id && r[i].position == gold[i].position
      && (r[i].collected <==> gold[i].collected || gold[i].position == pos)
  {
    if gold == [] then []
    else
      var g := gold[0];
      [if !g.collected && g.position == pos then g.(collected := true) else g] + CollectAt(gold[1..], pos)
  }

  /** How many items of the list are collected. */
  function CollectedCount(gold: seq<Gold>): (n: nat)
    ensures n <= |gold|
  {
    if gold == [] then 0 else (if gold[0].collected then 1 else 0) + CollectedCount(gold[1..])
  }

  /** How many items a visit to pos takes: the uncollected ones lying there. */
  function NewlyCollected(gold: seq<Gold>, pos: Position): (n: nat)
    ensures n <= |gold|
  {
    if gold == [] then 0
    else (if !gold[0].collected && gold[0].position == pos then 1 else 0) + NewlyCollected(gold[1..], pos)
  }

  /** A visit collects exactly the uncollected items at the visited cell. */
  lemma {:induction false} CollectAtCount(gold: seq<Gold>, pos: Position)
    ensures CollectedCount(CollectAt(gold, pos)) == CollectedCount(gold) + NewlyCollected(gold, pos)
  {
    if gold != [] {
      CollectAtCount(gold[1..], pos);
      assert CollectAt(gold, pos)[1..] == CollectAt(gold[1..], pos);
    }
  }

  /** Visiting the same cell again takes nothing more and changes nothing. */
  lemma {:induction false} CollectAtIdempotent(gold: seq<Gold>, pos: Position)
    ensures NewlyCollected(CollectAt(gold, pos), pos) == 0
    ensures CollectAt(CollectAt(gold, pos), pos) == CollectAt(gold, pos)
  {
    if gold != [] {
      CollectAtIdempotent(gold[1..], pos);
      assert CollectAt(gold, pos)[1..] == CollectAt(gold[1..], pos);
    }
  }

  /** The win condition: there is gold and all of it is collected. */
  predicate AllCollected(gold: seq<Gold>)
  {
    |gold| > 0 && forall i :: 0 <= i < |gold| ==> gold[i].collected
  }

  /** All gold is collected exactly when the collected count reaches the number of items. */
  lemma {:induction false} AllCollectedCount(gold: seq<Gold>)
    ensures (forall i :: 0 <= i < |gold| ==> gold[i].collected) <==> CollectedCount(gold) == |gold|
  {
    if gold != [] {
      AllCollectedCount(gold[1..]);
      assert forall i :: 1 <= i < |gold| ==> gold[i] == gold[1..][i - 1];
    }
  }

  // ---------------------------------------------------------------------------
  // Win, clock, pause
  // ---------------------------------------------------------------------------

  /** The game state after the win check: a level being played whose gold is all collected
      is complete, and completing the last level is victory. Nothing else changes. */
  function CheckWin(st: GameState, gold: seq<Gold>): (r: GameState)
    ensures AllCollected(gold) && st.gameStatus == Playing && st.currentLevel >= LastLevelId ==>
      r == st.(gameStatus := Victory)
    ensures AllCollected(gold) && st.gameStatus == Playing && st.currentLevel < LastLevelId ==>
      r == st.(gameStatus := LevelComplete)
    ensures !(AllCollected(gold) && st.gameStatus == Playing) ==> r == st
  {
    if |gold| > 0 && (forall i :: 0 <= i < |gold| ==> gold[i].collected) && st.gameStatus == Playing then
      st.(gameStatus := if st.currentLevel >= LastLevelId then Victory else LevelComplete)
    else st
  }

  /** The time a level grants after a time-out: its limit, or the default when there is no
      level or its limit is zero. */
  function ResetTime(lv: Option<Level>): (t: int)
    ensures lv.Some? && lv.value.timeLimit != 0 ==> t == lv.value.timeLimit
    ensures lv.None? || lv.value.timeLimit == 0 ==> t == DefaultTimeLimit
  {
    if lv.Some? && lv.value.timeLimit != 0 then lv.value.timeLimit else DefaultTimeLimit
  }

  /** The game state after one second of the clock: while playing, the time runs down; when
      it has run out, a life is lost and the clock restarts. Other statuses stop the clock. */
  function Countdown(st: GameState, lv: Option<Level>): (r: GameState)
    ensures st.gameStatus != Playing ==> r == st
    ensures st.gameStatus == Playing && st.timeRemaining > 0 ==> r == st.(timeRemaining := st.timeRemaining - 1)
    ensures st.gameStatus == Playing && st.timeRemaining <= 0 ==>
      r.lives == st.lives - 1 && (r.gameStatus == GameOver <==> st.lives <= 1)
      && (r.gameStatus != GameOver ==> r.gameStatus == Playing)
      && r.timeRemaining == ResetTime(lv)
      && r.currentLevel == st.currentLevel && r.score == st.score
  {
    if st.gameStatus == Playing && st.timeRemaining > 0 then st.(timeRemaining := st.timeRemaining - 1)
    else if st.timeRemaining <= 0 && st.gameStatus == Playing then LoseLife(st).(timeRemaining := ResetTime(lv))
    else st
  }

  /** A clock started at t seconds while playing runs down to zero in exactly t ticks, and
      the tick after that costs a life and resets the clock. */
  lemma {:induction false} CountdownRunsOut(st: GameState, lv: Option<Level>, t: nat)
    requires st.gameStatus == Playing && st.timeRemaining == t
    ensures Iterate(st, lv, t) == st.(timeRemaining := 0)
    ensures Countdown(Iterate(st, lv, t), lv) == LoseLife(st).(timeRemaining := ResetTime(lv))
    decreases t
  {
    if t > 0 {
      var s1 := Countdown(st, lv);
      assert s1 == st.(timeRemaining := t - 1);
      CountdownRunsOut(s1, lv, t - 1);
      assert s1.(timeRemaining := 0) == st.(timeRemaining := 0);
    }
  }

  /** n successive clock ticks. */
  function Iterate(st: GameState, lv: Option<Level>, n: nat): GameState
    decreases n
  {
    if n == 0 then st else Iterate(Countdown(st, lv), lv, n - 1)
  }

  /** Pause while playing; in any other status, play. */
  function Toggle(s: Status): (r: Status)
    ensures s == Playing ==> r == Paused
    ensures s != Playing ==> r == Playing
  {
    if s == Playing then Paused else Playing
  }

  /** Pausing and resuming are inverse: two toggles from playing or paused give the status back. */
  lemma ToggleTwice(s: Status)
    requires s == Playing || s == Paused
    ensures Toggle(Toggle(s)) == s
  {
  }

  // ---------------------------------------------------------------------------
  // Digging
  // ---------------------------------------------------------------------------

  /** The cell a dig request opens: one column to the side the player digs towards and one
      row down. It must lie inside the level and hold brick, and the game must be playing. */
  function DigTarget(status: Status, lv: Option<Level>, layout: seq<seq<Cell>>, pos: Position, dir: Direction): (r: Option<Position>)
    ensures r.Some? ==> r.value == Position(Ahead(pos.x, dir), pos.y + 1)
    ensures r.Some? <==>
      && status == Playing && lv.Some?
      && InBounds(Position(Ahead(pos.x, dir), pos.y + 1), lv.value.width, lv.value.height)
      && CellAt(layout, Ahead(pos.x, dir), pos.y + 1) == Some(Brick)
  {
    if status != Playing || lv.None? then None
    else
      var t := Position(if dir == Left then pos.x - 1 else pos.x + 1, pos.y + 1);
      if 0 <= t.x < lv.value.width && 0 <= t.y < lv.value.height && CellAt(layout, t.x, t.y) == Some(Brick)
      then Some(t) else None
  }

  /** The grid with one cell overwritten; every other cell and every row length is kept. */
  function SetCell(layout: seq<seq<Cell>>, p: Position, c: Cell): (r: seq<seq<Cell>>)
    requires 0 <= p.y < |layout| && 0 <= p.x < |layout[p.y]|
    ensures |r| == |layout|
    ensures forall y :: 0 <= y < |r| ==> |r[y]| == |layout[y]|
    ensures r[p.y][p.x] == c
    ensures forall y, x :: 0 <= y < |r| && 0 <= x < |r[y]| && (y != p.y || x != p.x) ==> r[y][x] == layout[y][x]
  {
    layout[p.y := layout[p.y][p.x := c]]
  }

  /** Digging a brick out and filling the hole again restores the grid exactly. */
  lemma DigThenRestore(layout: seq<seq<Cell>>, p: Position)
    requires 0 <= p.y < |layout| && 0 <= p.x < |layout[p.y]| && layout[p.y][p.x] == Brick
    ensures SetCell(SetCell(layout, p, Trap), p, Brick) == layout
  {
    var r := SetCell(SetCell(layout, p, Trap), p, Brick);
    assert forall y :: 0 <= y < |r| ==> r[y] == layout[y];
  }

  // ---------------------------------------------------------------------------
  // Spawning a level's entities
  // ---------------------------------------------------------------------------

  /** The live enemies of a level: each spawn with the id "enemy-i" after its index i. */
  function SpawnEnemies(spawns: seq<EnemySpawn>): (r: seq<Enemy>)
    ensures |r| == |spawns|
    ensures forall i :: 0 <= i < |spawns| ==>
      var s := spawns[i];
      r[i] == Enemy("enemy-" + NatToString(i), s.position, s.direction, s.kind, s.isAlive, s.respawnTimer)
  {
    seq(|spawns|, i requires 0 <= i < |spawns| =>
      Enemy("enemy-" + NatToString(i), spawns[i].position, spawns[i].direction, spawns[i].kind,
            spawns[i].isAlive, spawns[i].respawnTimer))
  }

  /** The gold of a level: each spawn with the id "gold-i" after its index i. */
  function SpawnGold(spawns: seq<GoldSpawn>): (r: seq<Gold>)
    ensures |r| == |spawns|
    ensures forall i :: 0 <= i < |spawns| ==>
      r[i] == Gold("gold-" + NatToString(i), spawns[i].position, spawns[i].collected)
  {
    seq(|spawns|, i requires 0 <= i < |spawns| => Gold("gold-" + NatToString(i), spawns[i].position, spawns[i].collected))
  }

  /** The ids handed out when a level is loaded are pairwise distinct. */
  lemma SpawnedIdsDistinct(es: seq<EnemySpawn>, gs: seq<GoldSpawn>)
    ensures forall i, j :: 0 <= i < j < |es| ==> SpawnEnemies(es)[i].id != SpawnEnemies(es)[j].id
    ensures forall i, j :: 0 <= i < j < |gs| ==> SpawnGold(gs)[i].id != SpawnGold(gs)[j].id
  {
    forall i, j | 0 <= i < j < |es|
      ensures SpawnEnemies(es)[i].id != SpawnEnemies(es)[j].id
    {
      if SpawnEnemies(es)[i].id == SpawnEnemies(es)[j].id {
        PrefixedInjective("enemy-", i, j);
      }
    }
    forall i, j | 0 <= i < j < |gs|
      ensures SpawnGold(gs)[i].id != SpawnGold(gs)[j].id
    {
      if SpawnGold(gs)[i].id == SpawnGold(gs)[j].id {
        PrefixedInjective("gold-", i, j);
      }
    }
  }
}
