/** The data model of the game: positions, cells, entities, levels and the session status. */
module Types {

  datatype Option<T> = None | Some(value: T)

  /** A grid-relative integer cell coordinate: column x, row y (row 0 is the top). */
  datatype Position = Position(x: int, y: int)

  /** The way a player or an enemy faces. */
  datatype Direction = Left | Right

  /** A movement intent of the player. */
  datatype MoveDirection = MoveLeft | MoveRight | MoveUp | MoveDown

  datatype Status = Menu | Playing | Paused | GameOver | LevelComplete | Victory

  datatype GameState = GameState(
    currentLevel: int,
    score: int,
    lives: int,
    gameStatus: Status,
    timeRemaining: int)

  datatype Player = Player(
    position: Position,
    direction: Direction,
    isOnLadder: bool,
    isDigging: bool,
    isMoving: bool)

  datatype EnemyKind = Guard | Robot

  datatype Enemy = Enemy(
    id: string,
    position: Position,
    direction: Direction,
    kind: EnemyKind,
    isAlive: bool,
    respawnTimer: int)

  datatype Gold = Gold(id: string, position: Position, collected: bool)

  /** An enemy as a level describes it: everything but the identity. */
  datatype EnemySpawn = EnemySpawn(
    position: Position,
    direction: Direction,
    kind: EnemyKind,
    isAlive: bool,
    respawnTimer: int)

  /** A gold item as a level describes it: everything but the identity. */
  datatype GoldSpawn = GoldSpawn(position: Position, collected: bool)

  /** The cell type. The last three are declared by the game but no level ever contains them. */
  datatype Cell = Empty | Brick | Concrete | Ladder | Rope | Trap | GoldCell | EnemyCell | PlayerCell

  datatype Level = Level(
    id: int,
    name: string,
    width: int,
    height: int,
    timeLimit: int,
    layout: seq<seq<Cell>>,
    playerStart: Position,
    enemies: seq<EnemySpawn>,
    gold: seq<GoldSpawn>)

  /** The cell a grid holds at (x, y), or None when the row or the column does not exist. */
  function CellAt(layout: seq<seq<Cell>>, x: int, y: int): (r: Option<Cell>)
    ensures r.Some? <==> 0 <= y < |layout| && 0 <= x < |layout[y]|
    ensures r.Some? ==> r.value == layout[y][x]
  {
    if 0 <= y < |layout| && 0 <= x < |layout[y]| then Some(layout[y][x]) else None
  }

  /** Every row of `layout` has `width` cells and there are `height` rows. */
  ghost predicate IsGrid(layout: seq<seq<Cell>>, width: int, height: int)
  {
    |layout| == height && forall y :: 0 <= y < |layout| ==> |layout[y]| == width
  }

  predicate InBounds(p: Position, width: int, height: int)
  {
    0 <= p.x < width && 0 <= p.y < height
  }
}
