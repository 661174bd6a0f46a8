/** The level catalog: the template parser, the generated levels and the lookup by id. */
module Levels {
  import opened Types
  import opened Text

  // ---------------------------------------------------------------------------
  // Template symbols
  // ---------------------------------------------------------------------------

  /** The symbol at column x of a template row, or None past the end of a short row. */
  function SymbolAt(row: string, x: int): (r: Option<char>)
    ensures r.Some? <==> 0 <= x < |row|
    ensures r.Some? ==> r.value == row[x]
  {
    if 0 <= x < |row| then Some(row[x]) else None
  }

  /** The terrain a template symbol stands for. Markers, unknown symbols and a missing
      symbol all leave an empty cell. */
  function CellOf(row: string, x: int): (c: Cell)
    ensures c == Concrete <==> SymbolAt(row, x) == Some('#')
    ensures c == Brick <==> SymbolAt(row, x) == Some('B')
    ensures c == Ladder <==> SymbolAt(row, x) == Some('L')
    ensures c == Rope <==> SymbolAt(row, x) == Some('R')
    ensures c == Empty <==> SymbolAt(row, x) !in {Some('#'), Some('B'), Some('L'), Some('R')}
  {
    var ch := SymbolAt(row, x);
    if ch == Some('#') then Concrete
    else if ch == Some('B') then Brick
    else if ch == Some('L') then Ladder
    else if ch == Some('R') then Rope
    else Empty
  }

  /** Terrain a parsed level can hold: no trap and none of the marker cell types. */
  predicate IsBaseTerrain(c: Cell)
  {
    c == Empty || c == Brick || c == Concrete || c == Ladder || c == Rope
  }

  function ParseRow(row: string, width: nat): (r: seq<Cell>)
    ensures |r| == width
    ensures forall x :: 0 <= x < width ==> r[x] == CellOf(row, x) && IsBaseTerrain(r[x])
  {
    seq(width, x requires 0 <= x < width => CellOf(row, x))
  }

  function ParseGrid(layout: seq<string>, width: nat): (r: seq<seq<Cell>>)
    ensures IsGrid(r, width, |layout|)
    ensures forall y :: 0 <= y < |layout| ==> r[y] == ParseRow(layout[y], width)
  {
    seq(|layout|, y requires 0 <= y < |layout| => ParseRow(layout[y], width))
  }

  // ---------------------------------------------------------------------------
  // Spawn markers in row-major scan order
  // ---------------------------------------------------------------------------

  /** The template holds symbol c at p. */
  predicate IsMark(layout: seq<string>, p: Position, c: char)
  {
    0 <= p.y < |layout| && SymbolAt(layout[p.y], p.x) == Some(c)
  }

  /** p comes strictly before q in row-major order. */
  predicate Before(p: Position, q: Position)
  {
    p.y < q.y || (p.y == q.y && p.x < q.x)
  }

  /** The columns of `row` holding c, left to right, as positions in row y. */
  function RowMarks(row: string, y: int, c: char): seq<Position>
  {
    if row == [] then []
    else RowMarks(row[..|row| - 1], y, c) + (if row[|row| - 1] == c then [Position(|row| - 1, y)] else [])
  }

  /** The part of a template row the parser reads: its first `width` symbols. */
  function Clip(row: string, width: nat): (r: string)
    ensures |r| <= width && forall x :: 0 <= x < width ==> SymbolAt(r, x) == SymbolAt(row, x)
  {
    row[..if |row| < width then |row| else width]
  }

  /** The cells of `rows` with x < width whose symbol is c, in row-major scan order. */
  function Marks(rows: seq<string>, width: nat, c: char): seq<Position>
  {
    if rows == [] then []
    else Marks(rows[..|rows| - 1], width, c) + RowMarks(Clip(rows[|rows| - 1], width), |rows| - 1, c)
  }

  /** RowMarks lists exactly the columns holding c, each once, left to right. */
  lemma {:induction false} RowMarksExact(row: string, y: int, c: char)
    ensures forall i :: 0 <= i < |RowMarks(row, y, c)| ==>
      var p := RowMarks(row, y, c)[i]; p.y == y && 0 <= p.x < |row| && row[p.x] == c
    ensures forall i, j :: 0 <= i < j < |RowMarks(row, y, c)| ==>
      RowMarks(row, y, c)[i].x < RowMarks(row, y, c)[j].x
    ensures forall x :: 0 <= x < |row| && row[x] == c ==> Position(x, y) in RowMarks(row, y, c)
  {
    if row != [] {
      var init := row[..|row| - 1];
      RowMarksExact(init, y, c);
      assert forall x :: 0 <= x < |init| ==> init[x] == row[x];
    }
  }

  /** Marks lists exactly the cells holding c, each once, in row-major scan order. */
  lemma {:induction false} MarksExact(rows: seq<string>, width: nat, c: char)
    ensures forall i :: 0 <= i < |Marks(rows, width, c)| ==>
      var p := Marks(rows, width, c)[i]; p.y < |rows| && 0 <= p.x < width && IsMark(rows, p, c)
    ensures forall i, j :: 0 <= i < j < |Marks(rows, width, c)| ==>
      Before(Marks(rows, width, c)[i], Marks(rows, width, c)[j])
    ensures forall y, x :: 0 <= y < |rows| && 0 <= x < width && SymbolAt(rows[y], x) == Some(c) ==>
      Position(x, y) in Marks(rows, width, c)
  {
    if rows != [] {
      var init := rows[..|rows| - 1];
      var last := Clip(rows[|rows| - 1], width);
      MarksExact(init, width, c);
      RowMarksExact(last, |rows| - 1, c);
      var prev := Marks(init, width, c);
      var row := RowMarks(last, |rows| - 1, c);
      assert Marks(rows, width, c) == prev + row;
      assert forall y :: 0 <= y < |init| ==> init[y] == rows[y];
      assert forall i :: 0 <= i < |prev| + |row| ==>
        (prev + row)[i] == if i < |prev| then prev[i] else row[i - |prev|];
    }
  }

  function GoldSpawns(ps: seq<Position>): (r: seq<GoldSpawn>)
    ensures |r| == |ps|
    ensures forall i :: 0 <= i < |ps| ==> r[i].position == ps[i] && !r[i].collected
  {
    seq(|ps|, i requires 0 <= i < |ps| => GoldSpawn(ps[i], false))
  }

  /** Enemies start facing left, alive, as guards, with a zero respawn timer. */
  function EnemySpawns(ps: seq<Position>): (r: seq<EnemySpawn>)
    ensures |r| == |ps|
    ensures forall i :: 0 <= i < |ps| ==>
      r[i].position == ps[i] && r[i].direction == Left && r[i].kind == Guard && r[i].isAlive && r[i].respawnTimer == 0
  {
    seq(|ps|, i requires 0 <= i < |ps| => EnemySpawn(ps[i], Left, Guard, true, 0))
  }

  lemma GoldSpawnsConcat(a: seq<Position>, b: seq<Position>)
    ensures GoldSpawns(a + b) == GoldSpawns(a) + GoldSpawns(b)
  {
    assert forall i :: 0 <= i < |a| + |b| ==> GoldSpawns(a + b)[i] == (GoldSpawns(a) + GoldSpawns(b))[i];
  }

  lemma EnemySpawnsConcat(a: seq<Position>, b: seq<Position>)
    ensures EnemySpawns(a + b) == EnemySpawns(a) + EnemySpawns(b)
  {
    assert forall i :: 0 <= i < |a| + |b| ==> EnemySpawns(a + b)[i] == (EnemySpawns(a) + EnemySpawns(b))[i];
  }

  function LastOr(s: seq<Position>, default: Position): Position
  {
    if s == [] then default else s[|s| - 1]
  }

  lemma LastOrConcat(a: seq<Position>, b: seq<Position>, default: Position)
    ensures LastOr(a + b, default) == LastOr(b, LastOr(a, default))
  {
    if b != [] {
      assert (a + b)[|a + b| - 1] == b[|b| - 1];
    } else {
      assert a + b == a;
    }
  }

  // ---------------------------------------------------------------------------
  // The parser
  // ---------------------------------------------------------------------------

  /** The level a template describes: height is the number of rows and width the length
      of the first row; the player starts at the last P in scan order, else at (1, height - 2). */
  function ParseLevel(id: int, name: string, layout: seq<string>, timeLimit: int): (r: Level)
    requires |layout| > 0
    ensures r.id == id && r.name == name && r.timeLimit == timeLimit
    ensures r.height == |layout| && r.width == |layout[0]|
    ensures IsGrid(r.layout, r.width, r.height)
    ensures forall y, x :: 0 <= y < r.height && 0 <= x < r.width ==>
      r.layout[y][x] == CellOf(layout[y], x) && IsBaseTerrain(r.layout[y][x])
  {
    var height := |layout|;
    var width := |layout[0]|;
    Level(id, name, width, height, timeLimit, ParseGrid(layout, width),
          LastOr(Marks(layout, width, 'P'), Position(1, height - 2)),
          EnemySpawns(Marks(layout, width, 'E')),
          GoldSpawns(Marks(layout, width, 'G')))
  }

  /** The template parser as the game runs it: one pass over the rows, filling the grid
      cell by cell and recording spawns as their markers are met. */
  method CreateLevel(id: int, name: string, layout: seq<string>, timeLimit: int := 300) returns (level: Level)
    requires |layout| > 0
    ensures level == ParseLevel(id, name, layout, timeLimit)
  {
    var height := |layout|;
    var width := |layout[0]|;
    var grid: seq<seq<Cell>> := [];
    var enemies: seq<EnemySpawn> := [];
    var gold: seq<GoldSpawn> := [];
    var playerStart := Position(1, height - 2);
    for y := 0 to height
      invariant |grid| == y
      invariant forall j :: 0 <= j < y ==> grid[j] == ParseRow(layout[j], width)
      invariant gold == GoldSpawns(Marks(layout[..y], width, 'G'))
      invariant enemies == EnemySpawns(Marks(layout[..y], width, 'E'))
      invariant playerStart == LastOr(Marks(layout[..y], width, 'P'), Position(1, height - 2))
    {
      ghost var done := layout[..y];
      assert layout[..y + 1][..y] == done;
      var row;
      row, gold, enemies, playerStart := ScanRow(layout[y], y, width, gold, enemies, playerStart);
      GoldSpawnsConcat(Marks(done, width, 'G'), RowMarks(Clip(layout[y], width), y, 'G'));
      EnemySpawnsConcat(Marks(done, width, 'E'), RowMarks(Clip(layout[y], width), y, 'E'));
      LastOrConcat(Marks(done, width, 'P'), RowMarks(Clip(layout[y], width), y, 'P'), Position(1, height - 2));
      grid := grid + [row];
    }
    assert layout[..height] == layout;
    assert grid == ParseGrid(layout, width);
    level := Level(id, name, width, height, timeLimit, grid, playerStart, enemies, gold);
  }

  /** The inner loop of the parser over the first `width` columns of one template row. */
  method ScanRow(line: string, y: int, width: nat, gold0: seq<GoldSpawn>, enemies0: seq<EnemySpawn>, start0: Position)
    returns (row: seq<Cell>, gold: seq<GoldSpawn>, enemies: seq<EnemySpawn>, playerStart: Position)
    ensures row == ParseRow(line, width)
    ensures gold == gold0 + GoldSpawns(RowMarks(Clip(line, width), y, 'G'))
    ensures enemies == enemies0 + EnemySpawns(RowMarks(Clip(line, width), y, 'E'))
    ensures playerStart == LastOr(RowMarks(Clip(line, width), y, 'P'), start0)
  {
    row, gold, enemies, playerStart := [], gold0, enemies0, start0;
    for x := 0 to width
      invariant |row| == x
      invariant forall i :: 0 <= i < x ==> row[i] == CellOf(line, i)
      invariant gold == gold0 + GoldSpawns(RowMarks(Clip(line, x), y, 'G'))
      invariant enemies == enemies0 + EnemySpawns(RowMarks(Clip(line, x), y, 'E'))
      invariant playerStart == LastOr(RowMarks(Clip(line, x), y, 'P'), start0)
    {
      var ch := SymbolAt(line, x);
      ghost var before := Clip(line, x);
      if x < |line| {
        assert Clip(line, x + 1)[..x] == before;
      } else {
        assert Clip(line, x + 1) == before;
      }
      var cell: Cell;
      if ch == Some('#') {
        cell := Concrete;
      } else if ch == Some('B') {
        cell := Brick;
      } else if ch == Some('L') {
        cell := Ladder;
      } else if ch == Some('R') {
        cell := Rope;
      } else if ch == Some('G') {
        cell := Empty;
        GoldSpawnsConcat(RowMarks(before, y, 'G'), [Position(x, y)]);
        gold := gold + [GoldSpawn(Position(x, y), false)];
      } else if ch == Some('E') {
        cell := Empty;
        EnemySpawnsConcat(RowMarks(before, y, 'E'), [Position(x, y)]);
        enemies := enemies + [EnemySpawn(Position(x, y), Left, Guard, true, 0)];
      } else if ch == Some('P') {
        cell := Empty;
        LastOrConcat(RowMarks(before, y, 'P'), [Position(x, y)], start0);
        playerStart := Position(x, y);
      } else {
        cell := Empty;
      }
      row := row + [cell];
    }
  }

  // ---------------------------------------------------------------------------
  // Parsed levels: spawns, player start, well-formedness
  // ---------------------------------------------------------------------------

  /** Gold and enemy spawns: one per marker, at the marker, in row-major scan order. */
  lemma ParsedSpawns(id: int, name: string, layout: seq<string>, timeLimit: int)
    requires |layout| > 0
    ensures var lv := ParseLevel(id, name, layout, timeLimit);
      && (forall i :: 0 <= i < |lv.gold| ==>
            !lv.gold[i].collected && InBounds(lv.gold[i].position, lv.width, lv.height)
            && IsMark(layout, lv.gold[i].position, 'G'))
      && (forall i, j :: 0 <= i < j < |lv.gold| ==> Before(lv.gold[i].position, lv.gold[j].position))
      && (forall y, x :: 0 <= y < lv.height && 0 <= x < lv.width && SymbolAt(layout[y], x) == Some('G') ==>
            exists i :: 0 <= i < |lv.gold| && lv.gold[i].position == Position(x, y))
    ensures var lv := ParseLevel(id, name, layout, timeLimit);
      && (forall i :: 0 <= i < |lv.enemies| ==>
            lv.enemies[i].kind == Guard && lv.enemies[i].direction == Left
            && lv.enemies[i].isAlive && lv.enemies[i].respawnTimer == 0
            && InBounds(lv.enemies[i].position, lv.width, lv.height)
            && IsMark(layout, lv.enemies[i].position, 'E'))
      && (forall i, j :: 0 <= i < j < |lv.enemies| ==> Before(lv.enemies[i].position, lv.enemies[j].position))
      && (forall y, x :: 0 <= y < lv.height && 0 <= x < lv.width && SymbolAt(layout[y], x) == Some('E') ==>
            exists i :: 0 <= i < |lv.enemies| && lv.enemies[i].position == Position(x, y))
  {
    var w, h := |layout[0]|, |layout|;
    MarksExact(layout, w, 'G');
    MarksExact(layout, w, 'E');
    var gs, es := Marks(layout, w, 'G'), Marks(layout, w, 'E');
    forall y, x | 0 <= y < h && 0 <= x < w && SymbolAt(layout[y], x) == Some('G')
      ensures exists i :: 0 <= i < |gs| && GoldSpawns(gs)[i].position == Position(x, y)
    {
      var i :| 0 <= i < |gs| && gs[i] == Position(x, y);
      assert GoldSpawns(gs)[i].position == Position(x, y);
    }
    forall y, x | 0 <= y < h && 0 <= x < w && SymbolAt(layout[y], x) == Some('E')
      ensures exists i :: 0 <= i < |es| && EnemySpawns(es)[i].position == Position(x, y)
    {
      var i :| 0 <= i < |es| && es[i] == Position(x, y);
      assert EnemySpawns(es)[i].position == Position(x, y);
    }
  }

  /** The last entry of a marker scan is the latest marker in scan order; an empty scan
      means there is no marker at all. */
  lemma LastMark(rows: seq<string>, width: nat, c: char)
    ensures var ms := Marks(rows, width, c);
      ms == [] ==> forall y, x :: 0 <= y < |rows| && 0 <= x < width ==> SymbolAt(rows[y], x) != Some(c)
    ensures var ms := Marks(rows, width, c);
      ms != [] ==>
        var last := ms[|ms| - 1];
        && IsMark(rows, last, c) && 0 <= last.x < width && last.y < |rows|
        && forall y, x :: 0 <= y < |rows| && 0 <= x < width && SymbolAt(rows[y], x) == Some(c) ==>
             !Before(last, Position(x, y))
  {
    MarksExact(rows, width, c);
    var ms := Marks(rows, width, c);
    if ms != [] {
      var last := ms[|ms| - 1];
      forall y, x | 0 <= y < |rows| && 0 <= x < width && SymbolAt(rows[y], x) == Some(c)
        ensures !Before(last, Position(x, y))
      {
        assert Position(x, y) in ms;
        var k :| 0 <= k < |ms| && ms[k] == Position(x, y);
        if k < |ms| - 1 {
          assert Before(ms[k], last);
        }
      }
    }
  }

  /** The player starts at the last P of the template in scan order, or at (1, height - 2)
      when the template has none. */
  lemma ParsedPlayerStart(id: int, name: string, layout: seq<string>, timeLimit: int)
    requires |layout| > 0
    ensures var lv := ParseLevel(id, name, layout, timeLimit);
      (forall y, x :: 0 <= y < lv.height && 0 <= x < lv.width ==> SymbolAt(layout[y], x) != Some('P')) ==>
        lv.playerStart == Position(1, lv.height - 2)
    ensures var lv := ParseLevel(id, name, layout, timeLimit);
      (exists y, x :: 0 <= y < lv.height && 0 <= x < lv.width && SymbolAt(layout[y], x) == Some('P')) ==>
        && IsMark(layout, lv.playerStart, 'P')
        && InBounds(lv.playerStart, lv.width, lv.height)
        && forall y, x :: 0 <= y < lv.height && 0 <= x < lv.width && SymbolAt(layout[y], x) == Some('P') ==>
             !Before(lv.playerStart, Position(x, y))
  {
    var w := |layout[0]|;
    LastMark(layout, w, 'P');
    MarksExact(layout, w, 'P');
    var ms := Marks(layout, w, 'P');
    assert ParseLevel(id, name, layout, timeLimit).playerStart == LastOr(ms, Position(1, |layout| - 2));
    if ms != [] {
      assert ms[0] in ms;
    }
  }

  /** What every level the session loads satisfies: a height-by-width grid of base terrain,
      and the player start and every spawn inside it. */
  ghost predicate WellFormed(lv: Level)
  {
    && IsGrid(lv.layout, lv.width, lv.height)
    && InBounds(lv.playerStart, lv.width, lv.height)
    && (forall i :: 0 <= i < |lv.enemies| ==> InBounds(lv.enemies[i].position, lv.width, lv.height))
    && (forall i :: 0 <= i < |lv.gold| ==> InBounds(lv.gold[i].position, lv.width, lv.height))
    && (forall y, x :: 0 <= y < lv.height && 0 <= x < lv.width ==> IsBaseTerrain(lv.layout[y][x]))
  }

  /** A template of at least two rows whose first row has at least two symbols parses into
      a well-formed level (the default start (1, height - 2) then lies inside the grid). */
  lemma ParsedWellFormed(id: int, name: string, layout: seq<string>, timeLimit: int)
    requires |layout| >= 2 && |layout[0]| >= 2
    ensures WellFormed(ParseLevel(id, name, layout, timeLimit))
  {
    ParsedSpawns(id, name, layout, timeLimit);
    var w, h := |layout[0]|, |layout|;
    MarksExact(layout, w, 'P');
  }

  // ---------------------------------------------------------------------------
  // The catalog
  // ---------------------------------------------------------------------------

  const FirstSteps: seq<string> := [
    "######################",
    "#                    #",
    "#  G    G    G    G  #",
    "#BBBBBBBBBBBBBBBBBBBB#",
    "#                    #",
    "#  L              L  #",
    "#  L    BBBBBB    L  #",
    "#  L      G       L  #",
    "#  LBBBBBBBBBBBBBB L #",
    "#  L              L  #",
    "#  L    E    E    L  #",
    "#BBBBBBBBBBBBBBBBBBBB#",
    "#         P          #",
    "######################"
  ]

  const GoldRush: seq<string> := [
    "######################",
    "#                    #",
    "#G  BBBB  G  BBBB  G #",
    "#L       BLB       L#",
    "#L   G   BLB   G   L#",
    "#LBBBBBBBBLBBBBBBBBL#",
    "#L       BLB       L#",
    "#L   E   BLB   E   L#",
    "#LBBBBBBBBLBBBBBBBBL#",
    "#L                 L#",
    "#L    G     G      L#",
    "#LBBBBBBBBBBBBBBBBBL#",
    "#         P          #",
    "######################"
  ]

  const HangingAround: seq<string> := [
    "######################",
    "#                    #",
    "#  G  RRRRRRRR  G    #",
    "#  L           BL    #",
    "#  L     G     BL    #",
    "#  LBBBBBBBBBBBBL    #",
    "#  L             RRRR#",
    "#  L    E         G L#",
    "#  LBBBBBBBBBBBBBBBB #",
    "#  L                 #",
    "#  L    G     G      #",
    "#BBBBBBBBBBBBBBBBBBBB#",
    "#         P          #",
    "######################"
  ]

  const TowerClimb: seq<string> := [
    "######################",
    "#        G           #",
    "#BBBBBBBBBBBBBBBBBBBB#",
    "#L     E       E    L#",
    "#L  G         G     L#",
    "#LBBBBBBBBBBBBBBBBBBL#",
    "#L                  L#",
    "#L    G       G     L#",
    "#LBBBBBBBBBBBBBBBBBBL#",
    "#L     E       E    L#",
    "#L  G         G     L#",
    "#LBBBBBBBBBBBBBBBBBBL#",
    "#         P          #",
    "######################"
  ]

  const MazeRunner: seq<string> := [
    "######################",
    "#G                  G#",
    "#BBBB  LRRRRRRL  BBBB#",
    "#   B  L       L  B  #",
    "#   B  L   G   L  B  #",
    "#   BBBLBBBBBBBBLBBB #",
    "#      L   E   L     #",
    "#   BBBLBBBBBBBBLBBB #",
    "#   B  L   G   L  B  #",
    "#   B  L       L  B  #",
    "#BBBB  LRRRRRRL  BBBB#",
    "#      L   P   L     #",
    "#BBBBBBBBBBBBBBBBBBBB#",
    "######################"
  ]

  const HorizontalLayers: seq<string> := [
    "######################",
    "#                    #",
    "#G G G G G G G G G G #",
    "#BBBBBBBBBBBBBBBBBBBB#",
    "#                    #",
    "#  E    L    L    E  #",
    "#BBBBBBBLBBBBBLBBBBBB#",
    "#       L    L       #",
    "#   G   L    L   G   #",
    "#BBBBBBBBBBBBBBBBBBB #",
    "#                    #",
    "#BBBBBBBBBBBBBBBBBBBB#",
    "#         P          #",
    "######################"
  ]

  const VerticalTowers: seq<string> := [
    "######################",
    "#G  L    G    L    G#",
    "#B  L    B    L    B#",
    "#B  L    B    L    B#",
    "#B  LBBBBBBBBBL    B#",
    "#B  L    E    L    B#",
    "#B  LBBBBBBBBBL    B#",
    "#B  L         L    B#",
    "#B  L    G    L    B#",
    "#BBBLBBBBBBBBBBLBBBB#",
    "#   L         L     #",
    "#BBBBBBBBBBBBBBBBBBBB#",
    "#         P          #",
    "######################"
  ]

  const Spiral: seq<string> := [
    "######################",
    "#GBBBBBBBBBBBBBBBBBBG#",
    "#L                  L#",
    "#L  BBBBBBBBBBBBBB  L#",
    "#L  B            B  L#",
    "#L  B  BBBBBBBB  B  L#",
    "#L  B  B  G E B  B  L#",
    "#L  B  BBBBBBBB  B  L#",
    "#L  B            B  L#",
    "#L  BBBBBBBBBBBBBB  L#",
    "#L                  L#",
    "#LBBBBBBBBBBBBBBBBBB #",
    "#         P          #",
    "######################"
  ]

  /** The three layouts the generated levels cycle through. */
  const Patterns: seq<seq<string>> := [HorizontalLayers, VerticalTowers, Spiral]

  function Max(a: int, b: int): int
  {
    if a >= b then a else b
  }

  /** A generated level: pattern `id mod 3`, named after its id, with a time limit that
      falls by 3 seconds per level down to a floor of 180. */
  function GenerateLevel(id: nat): (r: Level)
    ensures r.id == id && r.name == "Level " + NatToString(id)
    ensures 180 <= r.timeLimit <= 600
    ensures id <= 140 ==> r.timeLimit == 600 - 3 * id
    ensures id >= 140 ==> r.timeLimit == 180
    ensures r.width == 22 && r.height == 14
    ensures r.layout == ParseGrid(Patterns[id % 3], 22)
  {
    var pattern := Patterns[id % |Patterns|];
    var timeLimit := Max(180, 600 - id * 3);
    ParseLevel(id, "Level " + NatToString(id), pattern, timeLimit)
  }

  /** Generated levels repeat every three ids, with a time limit that never grows. */
  lemma GeneratedLevelsCycle(id: nat)
    ensures var a, b := GenerateLevel(id), GenerateLevel(id + 3);
      a.layout == b.layout && a.playerStart == b.playerStart && a.enemies == b.enemies && a.gold == b.gold
      && b.timeLimit <= a.timeLimit
  {
    assert (id + 3) % 3 == id % 3;
  }

  /** Ids of different residues mod 3 get different layouts: the three patterns differ at
      row 2, column 1 (empty, brick, ladder). */
  lemma GeneratedLayoutsDiffer(a: nat, b: nat)
    requires a % 3 != b % 3
    ensures GenerateLevel(a).layout != GenerateLevel(b).layout
  {
    PatternMarkCell(a % 3);
    PatternMarkCell(b % 3);
  }

  /** Row 2, column 1 of pattern k parses to empty, brick or ladder for k = 0, 1, 2. */
  lemma PatternMarkCell(k: nat)
    requires k < 3
    ensures ParseGrid(Patterns[k], 22)[2][1] == [Empty, Brick, Ladder][k]
  {
    var row := Patterns[k][2];
    if k == 0 {
      assert row[1] == 'G';
    } else if k == 1 {
      assert row[1] == 'B';
    } else {
      assert row[1] == 'L';
    }
    assert ParseGrid(Patterns[k], 22)[2][1] == CellOf(row, 1);
  }

  /** The templates, names and time limits of the five hand-made levels. */
  function HandMadeTemplate(k: nat): seq<string>
  {
    if k == 0 then FirstSteps
    else if k == 1 then GoldRush
    else if k == 2 then HangingAround
    else if k == 3 then TowerClimb
    else MazeRunner
  }

  const HandMadeNames: seq<string> := ["First Steps", "Gold Rush", "Hanging Around", "Tower Climb", "Maze Runner"]

  const HandMadeTimeLimits: seq<int> := [180, 240, 300, 360, 420]

  /** The five hand-made levels, with ids 1 to 5 and their names and time limits. */
  function HandMadeLevels(): (r: seq<Level>)
    ensures |r| == 5
    ensures forall k :: 0 <= k < 5 ==>
      r[k].id == k + 1 && r[k].name == HandMadeNames[k] && r[k].timeLimit == HandMadeTimeLimits[k]
  {
    seq(5, k requires 0 <= k < 5 => ParseLevel(k + 1, HandMadeNames[k], HandMadeTemplate(k), HandMadeTimeLimits[k]))
  }

  /** The values of f at lo, lo + 1, ..., hi - 1, in order. */
  function Tabulate<T>(f: nat -> T, lo: nat, hi: nat): (r: seq<T>)
    requires lo <= hi
    ensures |r| == hi - lo
    ensures forall j :: 0 <= j < |r| ==> r[j] == f(lo + j)
  {
    seq(hi - lo, j requires 0 <= j < hi - lo => f(lo + j))
  }

  lemma TabulateSnoc<T>(f: nat -> T, lo: nat, hi: nat)
    requires lo <= hi
    ensures Tabulate(f, lo, hi + 1) == Tabulate(f, lo, hi) + [f(hi)]
  {
    var a, b := Tabulate(f, lo, hi + 1), Tabulate(f, lo, hi) + [f(hi)];
    assert forall j :: 0 <= j < |a| ==> a[j] == b[j];
  }

  /** The level table: five hand-made levels, then levels 6 to 100 generated, so that the
      entry at index k has id k + 1. */
  function Catalog(): (r: seq<Level>)
    ensures |r| == 100
    ensures forall k :: 0 <= k < |r| ==> r[k].id == k + 1
    ensures forall k :: 0 <= k < 5 ==> r[k] == HandMadeLevels()[k]
    ensures forall k :: 5 <= k < |r| ==> r[k] == GenerateLevel(k + 1)
  {
    var hand, gen := HandMadeLevels(), Tabulate(GenerateLevel, 6, 101);
    assert forall k :: 0 <= k < 5 ==> (hand + gen)[k] == hand[k];
    assert forall k :: 5 <= k < 100 ==> (hand + gen)[k] == gen[k - 5];
    hand + gen
  }

  /** The hand-made part of the table, as the game writes it: one parser call per level. */
  method BuildHandMade() returns (levels: seq<Level>)
    ensures levels == HandMadeLevels()
  {
    var l1 := CreateLevel(1, "First Steps", FirstSteps, 180);
    var l2 := CreateLevel(2, "Gold Rush", GoldRush, 240);
    var l3 := CreateLevel(3, "Hanging Around", HangingAround, 300);
    var l4 := CreateLevel(4, "Tower Climb", TowerClimb, 360);
    var l5 := CreateLevel(5, "Maze Runner", MazeRunner, 420);
    levels := [l1, l2, l3, l4, l5];
    ghost var hand := HandMadeLevels();
    assert levels[0] == hand[0] && levels[1] == hand[1] && levels[2] == hand[2] && levels[3] == hand[3] && levels[4] == hand[4];
  }

  /** The table as the game builds it at start-up: the hand-made levels, then one push per
      generated level. */
  method BuildLevels() returns (levels: seq<Level>)
    ensures levels == Catalog()
  {
    levels := BuildHandMade();
    ghost var hand := levels;
    assert levels == hand + Tabulate(GenerateLevel, 6, 6);
    for i := 6 to 101
      invariant levels == hand + Tabulate(GenerateLevel, 6, i)
    {
      TabulateSnoc(GenerateLevel, 6, i);
      levels := levels + [GenerateLevel(i)];
    }
  }

  /** The first level of `levels` whose id is `id`, if any. */
  function FindById(levels: seq<Level>, id: int): (r: Option<Level>)
    ensures r.Some? ==> r.value in levels && r.value.id == id
    ensures r.None? <==> forall k :: 0 <= k < |levels| ==> levels[k].id != id
  {
    if levels == [] then None
    else if levels[0].id == id then Some(levels[0])
    else FindById(levels[1..], id)
  }

  /** The level found is the first one carrying the id: every entry before it has another. */
  lemma {:induction false} FindByIdFirst(levels: seq<Level>, id: int)
    ensures FindById(levels, id).Some? ==>
      exists k :: 0 <= k < |levels| && levels[k] == FindById(levels, id).value
                  && forall j :: 0 <= j < k ==> levels[j].id != id
  {
    if levels != [] && levels[0].id != id && FindById(levels, id).Some? {
      var rest := levels[1..];
      FindByIdFirst(rest, id);
      var k :| 0 <= k < |rest| && rest[k] == FindById(rest, id).value
               && forall j :: 0 <= j < k ==> rest[j].id != id;
      assert levels[k + 1] == FindById(levels, id).value;
      assert forall j :: 0 <= j < k + 1 ==> levels[j].id != id;
    }
  }

  /** Lookup by id: the table entry with that id for 1..100, nothing otherwise. */
  function GetLevelById(id: int): (r: Option<Level>)
    ensures r == if 1 <= id <= 100 then Some(Catalog()[id - 1]) else None
  {
    FindById(Catalog(), id)
  }

  function GetTotalLevels(): (n: nat)
    ensures n == 100
  {
    |Catalog()|
  }

  /** The hand-made levels are well-formed. */
  lemma HandMadeWellFormed(k: nat)
    requires k < 5
    ensures WellFormed(HandMadeLevels()[k])
  {
    var t := HandMadeTemplate(k);
    assert |t| == 14 && |t[0]| == 22 by {
      assert k == 0 || k == 1 || k == 2 || k == 3 || k == 4;
    }
    ParsedWellFormed(k + 1, HandMadeNames[k], t, HandMadeTimeLimits[k]);
  }

  /** Every generated level is well-formed. */
  lemma GeneratedWellFormed(id: nat)
    ensures WellFormed(GenerateLevel(id))
  {
    var t := Patterns[id % |Patterns|];
    assert |t| == 14 && |t[0]| == 22 by {
      assert id % 3 == 0 || id % 3 == 1 || id % 3 == 2;
    }
    ParsedWellFormed(id, "Level " + NatToString(id), t, Max(180, 600 - id * 3));
  }

  /** What the session relies on in the level table: levels 1 to 100 in order, each one
      well-formed. */
  ghost predicate IsTable(levels: seq<Level>)
  {
    && |levels| == 100
    && (forall k :: 0 <= k < |levels| ==> levels[k].id == k + 1)
    && (forall k :: 0 <= k < |levels| ==> WellFormed(levels[k]))
  }

  /** In a table whose entry k has id k + 1, the lookup of id finds entry id - 1. */
  lemma TableLookup(levels: seq<Level>, id: int)
    requires forall k :: 0 <= k < |levels| ==> levels[k].id == k + 1
    ensures FindById(levels, id) == if 1 <= id <= |levels| then Some(levels[id - 1]) else None
  {
    var r := FindById(levels, id);
    if r.Some? {
      var k :| 0 <= k < |levels| && levels[k] == r.value;
    }
  }

  /** The built-in table is such a table. */
  lemma CatalogIsTable()
    ensures IsTable(Catalog())
  {
    forall k | 0 <= k < 100
      ensures WellFormed(Catalog()[k])
    {
      if k < 5 {
        HandMadeWellFormed(k);
      } else {
        GeneratedWellFormed(k + 1);
      }
    }
  }
}
