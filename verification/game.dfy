/** The driver in main.cpp: `setup`, which scans the map once and builds the
    game objects and the player's start, and the movement part of `update`. */
module Game {
  import opened Positions
  import opened GameMap
  import opened GameState

  /** The cells `setup` builds an object for: a coin, a power pellet, or the
      Max, Manhattan or Euclid ghost. */
  predicate Spawns(c: Cell)
  {
    c == C || c == P || c == m || c == t || c == e
  }

  /** An object `setup` creates: the cell it stands for and its position. */
  datatype Spawn = Spawn(cell: Cell, pos: Pos)

  /** The objects built for cell `c` at row `i`, column `j`: one, at `CPos(i, j)`,
      with the row as x. */
  function CellSpawns(c: Cell, i: int, j: int): (spawns: seq<Spawn>)
    ensures |spawns| == (if Spawns(c) then 1 else 0)
  {
    if Spawns(c) then [Spawn(c, Pos(i as real, j as real))] else []
  }

  /** The objects built from the first `n` cells of row `i`. */
  function RowSpawns(row: seq<Cell>, i: int, n: nat): seq<Spawn>
    requires n <= |row|
  {
    if n == 0 then [] else RowSpawns(row, i, n - 1) + CellSpawns(row[n - 1], i, n - 1)
  }

  /** The objects built from the first `k` rows, in row-major order. */
  function GridSpawns(g: Grid, k: nat): seq<Spawn>
    requires k <= |g|
  {
    if k == 0 then [] else GridSpawns(g, k - 1) + RowSpawns(g[k - 1], k - 1, |g[k - 1]|)
  }

  /** The player's position after scanning the first `n` cells of row `i`,
      starting from `p`: every start cell moves it to `CPos(j, i)`. */
  function StartInRow(row: seq<Cell>, i: int, n: nat, p: Pos): Pos
    requires n <= |row|
  {
    if n == 0 then p
    else if row[n - 1] == S then Pos((n - 1) as real, i as real)
    else StartInRow(row, i, n - 1, p)
  }

  /** The player's position after scanning the first `k` rows, starting from `p`. */
  function StartInRows(g: Grid, k: nat, p: Pos): Pos
    requires k <= |g|
  {
    if k == 0 then p else StartInRow(g[k - 1], k - 1, |g[k - 1]|, StartInRows(g, k - 1, p))
  }

  /** The number of spawned objects that stand for cell `c`. */
  function SpawnCount(spawns: seq<Spawn>, c: Cell): nat
  {
    if spawns == [] then 0
    else SpawnCount(spawns[..|spawns| - 1], c) + (if spawns[|spawns| - 1].cell == c then 1 else 0)
  }

  /** `setup`: the objects, in row-major order, and the player's start; the map is only read. */
  method Setup(g: GameState) returns (objects: seq<Spawn>)
    requires g.Valid()
    modifies g`playerPos
    ensures objects == GridSpawns(g.gameMap, BoardHeight)
    ensures g.playerPos == StartInRows(g.gameMap, BoardHeight, old(g.playerPos))
  {
    objects := [];
    for i := 0 to BoardHeight
      invariant objects == GridSpawns(g.gameMap, i)
      invariant g.playerPos == StartInRows(g.gameMap, i, old(g.playerPos))
    {
      ghost var row, done := g.gameMap[i], objects;
      for j := 0 to BoardWidth
        invariant objects == done + RowSpawns(row, i, j)
        invariant g.playerPos == StartInRow(row, i, j, StartInRows(g.gameMap, i, old(g.playerPos)))
      {
        ghost var before := objects;
        match g.gameMap[i][j] {
          case C => objects := objects + [Spawn(C, Pos(i as real, j as real))];
          case P => objects := objects + [Spawn(P, Pos(i as real, j as real))];
          case S => g.playerPos := Pos(j as real, i as real);
          case m => objects := objects + [Spawn(m, Pos(i as real, j as real))];
          case t => objects := objects + [Spawn(t, Pos(i as real, j as real))];
          case e => objects := objects + [Spawn(e, Pos(i as real, j as real))];
          case _ =>
        }
        assert objects == before + CellSpawns(row[j], i, j);
        assert done + RowSpawns(row, i, j + 1) == done + RowSpawns(row, i, j) + CellSpawns(row[j], i, j);
      }
      assert row[..|row|] == row;
    }
  }

  /** Counting the objects of a row counts the row's cells of that kind. */
  lemma {:induction false} RowSpawnCount(row: seq<Cell>, i: int, n: nat, c: Cell)
    requires n <= |row| && Spawns(c)
    ensures SpawnCount(RowSpawns(row, i, n), c) == Count(row[..n], c)
  {
    if n > 0 {
      var prefix, cell := row[..n], row[n - 1];
      RowSpawnCount(row, i, n - 1, c);
      assert prefix[..n - 1] == row[..n - 1] && prefix[n - 1] == cell;
      assert Count(prefix, c) == Count(row[..n - 1], c) + (if cell == c then 1 else 0);
      var spawned := CellSpawns(cell, i, n - 1);
      assert SpawnCount(spawned, c) == (if cell == c then 1 else 0) by {
        if spawned != [] {
          assert spawned[..0] == [];
        }
      }
      SpawnCountAppend(RowSpawns(row, i, n - 1), spawned, c);
    }
  }

  /** Counting distributes over concatenation. */
  lemma {:induction false} SpawnCountAppend(a: seq<Spawn>, b: seq<Spawn>, c: Cell)
    ensures SpawnCount(a + b, c) == SpawnCount(a, c) + SpawnCount(b, c)
    decreases |b|
  {
    if b != [] {
      var b' := b[..|b| - 1];
      assert (a + b)[..|a + b| - 1] == a + b';
      assert (a + b)[|a + b| - 1] == b[|b| - 1];
      SpawnCountAppend(a, b', c);
    } else {
      assert a + b == a;
    }
  }

  /** `setup` builds one object per cell of each spawning kind. */
  lemma {:induction false} GridSpawnCount(g: Grid, k: nat, c: Cell)
    requires k <= |g| && Spawns(c)
    ensures SpawnCount(GridSpawns(g, k), c) == CountRows(g, c, k)
  {
    if k > 0 {
      var row, done := g[k - 1], GridSpawns(g, k - 1);
      var last := RowSpawns(row, k - 1, |row|);
      assert GridSpawns(g, k) == done + last;
      GridSpawnCount(g, k - 1, c);
      RowSpawnCount(row, k - 1, |row|, c);
      assert row[..|row|] == row;
      assert SpawnCount(last, c) == Count(row, c);
      SpawnCountAppend(done, last, c);
      assert CountRows(g, c, k) == CountRows(g, c, k - 1) + Count(row, c);
    }
  }

  /** Every object of a row stands for a spawning cell of that row, at `CPos(row, column)`. */
  lemma {:induction false} RowSpawnsAreCells(row: seq<Cell>, i: int, n: nat)
    requires n <= |row|
    ensures forall s | s in RowSpawns(row, i, n) ::
      exists j | 0 <= j < n :: row[j] == s.cell && Spawns(s.cell) && s.pos == Pos(i as real, j as real)
  {
    if n > 0 {
      RowSpawnsAreCells(row, i, n - 1);
    }
  }

  /** Every spawning cell of a row has its object. */
  lemma {:induction false} CellsHaveRowSpawns(row: seq<Cell>, i: int, n: nat)
    requires n <= |row|
    ensures forall j | 0 <= j < n && Spawns(row[j]) :: Spawn(row[j], Pos(i as real, j as real)) in RowSpawns(row, i, n)
  {
    if n > 0 {
      CellsHaveRowSpawns(row, i, n - 1);
      assert Spawn(row[n - 1], Pos(i as real, (n - 1) as real)) in CellSpawns(row[n - 1], i, n - 1) || !Spawns(row[n - 1]);
    }
  }

  /** Every object stands for a spawning cell of the map, at `CPos(row, column)`. */
  lemma {:induction false} GridSpawnsAreCells(g: Grid, k: nat)
    requires k <= |g|
    ensures forall s | s in GridSpawns(g, k) ::
      exists i, j | 0 <= i < k && 0 <= j < |g[i]| :: g[i][j] == s.cell && Spawns(s.cell) && s.pos == Pos(i as real, j as real)
  {
    if k > 0 {
      GridSpawnsAreCells(g, k - 1);
      RowSpawnsAreCells(g[k - 1], k - 1, |g[k - 1]|);
    }
  }

  /** Every spawning cell of the map has its object, at `CPos(row, column)`. */
  lemma {:induction false} CellsHaveGridSpawns(g: Grid, k: nat)
    requires k <= |g|
    ensures forall i, j | 0 <= i < k && 0 <= j < |g[i]| && Spawns(g[i][j]) ::
      Spawn(g[i][j], Pos(i as real, j as real)) in GridSpawns(g, k)
  {
    if k > 0 {
      CellsHaveGridSpawns(g, k - 1);
      CellsHaveRowSpawns(g[k - 1], k - 1, |g[k - 1]|);
    }
  }

  /** A row with a cell of kind `c` counts at least one. */
  lemma {:induction false} CountPresent(row: seq<Cell>, c: Cell, j: nat)
    requires j < |row| && row[j] == c
    ensures Count(row, c) >= 1
  {
    if j < |row| - 1 {
      CountPresent(row[..|row| - 1], c, j);
    }
  }

  /** A row prefix without start cells leaves the player where it was. */
  lemma {:induction false} StartInRowWithoutStart(row: seq<Cell>, i: int, n: nat, p: Pos)
    requires n <= |row| && Count(row[..n], S) == 0
    ensures StartInRow(row, i, n, p) == p
  {
    if n > 0 {
      assert row[..n][..n - 1] == row[..n - 1];
      StartInRowWithoutStart(row, i, n - 1, p);
    }
  }

  /** A row prefix with a single start cell, at column `col`, puts the player at `CPos(col, i)`. */
  lemma {:induction false} StartInRowWithOneStart(row: seq<Cell>, i: int, n: nat, p: Pos, col: nat)
    requires col < n <= |row| && row[col] == S && Count(row[..n], S) == 1
    ensures StartInRow(row, i, n, p) == Pos(col as real, i as real)
  {
    assert row[..n][..n - 1] == row[..n - 1];
    if col < n - 1 {
      CountPresent(row[..n - 1], S, col);
      StartInRowWithOneStart(row, i, n - 1, p, col);
    }
  }

  /** Rows without start cells leave the player where it was. */
  lemma {:induction false} StartInRowsWithoutStart(g: Grid, k: nat, p: Pos)
    requires k <= |g| && CountRows(g, S, k) == 0
    ensures StartInRows(g, k, p) == p
  {
    if k > 0 {
      StartInRowsWithoutStart(g, k - 1, p);
      assert g[k - 1][..|g[k - 1]|] == g[k - 1];
      StartInRowWithoutStart(g[k - 1], k - 1, |g[k - 1]|, p);
    }
  }

  /** With a single start cell in the map, at row `r` and column `col`,
      `setup` puts the player at `CPos(col, r)`, wherever it was before. */
  lemma {:induction false} StartInRowsWithOneStart(g: Grid, k: nat, p: Pos, r: nat, col: nat)
    requires r < k <= |g| && col < |g[r]| && g[r][col] == S && CountRows(g, S, k) == 1
    ensures StartInRows(g, k, p) == Pos(col as real, r as real)
  {
    var row := g[k - 1];
    assert row[..|row|] == row;
    if r < k - 1 {
      CountRowsPresent(g, k - 1, r, col);
      StartInRowsWithOneStart(g, k - 1, p, r, col);
      StartInRowWithoutStart(row, k - 1, |row|, StartInRows(g, k - 1, p));
    } else {
      CountPresent(row, S, col);
      StartInRowsWithoutStart(g, k - 1, p);
      StartInRowWithOneStart(row, k - 1, |row|, p, col);
    }
  }

  /** A table with a start cell in its first `k` rows counts at least one. */
  lemma {:induction false} CountRowsPresent(g: Grid, k: nat, r: nat, col: nat)
    requires r < k <= |g| && col < |g[r]| && g[r][col] == S
    ensures CountRows(g, S, k) >= 1
  {
    if r < k - 1 {
      CountRowsPresent(g, k - 1, r, col);
    } else {
      CountPresent(g[r], S, col);
    }
  }

  /** On the shipped map, `setup` builds 240 coins, 4 pellets and one ghost of
      each kind, and puts the player at (13, 23) whatever its previous position. */
  lemma TemplateSetup(p: Pos)
    ensures SpawnCount(GridSpawns(Template, BoardHeight), C) == InitialCoinCount
    ensures SpawnCount(GridSpawns(Template, BoardHeight), P) == 4
    ensures SpawnCount(GridSpawns(Template, BoardHeight), m) == 1
    ensures SpawnCount(GridSpawns(Template, BoardHeight), t) == 1
    ensures SpawnCount(GridSpawns(Template, BoardHeight), e) == 1
    ensures StartInRows(Template, BoardHeight, p) == Pos(13.0, 23.0)
  {
    TemplateIsBoard();
    GridSpawnCount(Template, BoardHeight, C);
    TemplateCoinCount();
    GridSpawnCount(Template, BoardHeight, P);
    PelletCells();
    GridSpawnCount(Template, BoardHeight, m);
    GridSpawnCount(Template, BoardHeight, t);
    GridSpawnCount(Template, BoardHeight, e);
    GhostStartsAreUnique();
    StartCellIsUnique();
    StartInRowsWithOneStart(Template, BoardHeight, p, 23, 13);
  }

  /** The player's position after the movement step of `update`: it moves along
      `thisMove` only when that move is legal where the player stands. */
  function Moved(grid: Grid, pos: Pos, move: Direction, deltaTime: real): (q: Pos)
    requires IsBoard(grid) && ProbeInMap(move, pos)
    ensures !IsAMoveLegal(grid, move, pos) ==> q == pos
    ensures IsAMoveLegal(grid, move, pos) ==> q == Advance(pos, move, PlayerSpeed * deltaTime)
  {
    if IsAMoveLegal(grid, move, pos) then Advance(pos, move, PlayerSpeed * deltaTime) else pos
  }

  /** A frame shorter than a quarter second keeps a player moving right or down
      off walls: the step is shorter than a tile. */
  lemma RightOrDownFrameStaysOpen(grid: Grid, pos: Pos, move: Direction, deltaTime: real)
    requires IsBoard(grid) && (move == Right || move == Down) && ProbeInMap(move, pos)
    requires OnOpenTile(grid, pos) && 0.0 <= deltaTime < 0.25
    ensures OnOpenTile(grid, Moved(grid, pos, move, deltaTime))
  {
    if IsAMoveLegal(grid, move, pos) {
      RightOrDownStepStaysOpen(grid, pos, move, PlayerSpeed * deltaTime);
    }
  }

  /** The movement part of `update` (main.cpp): move if the current move is
      legal, then adopt the buffered move if it is legal at the new position.
      Game objects and the score are not touched. */
  method Tick(g: GameState, deltaTime: real)
    requires g.Valid() && ProbeInMap(g.thisMove, g.playerPos)
    requires ProbeInMap(g.nextMove, Moved(g.gameMap, g.playerPos, g.thisMove, deltaTime))
    modifies g`playerPos, g`thisMove
    ensures g.playerPos == Moved(g.gameMap, old(g.playerPos), old(g.thisMove), deltaTime)
    ensures g.thisMove == if IsAMoveLegal(g.gameMap, g.nextMove, g.playerPos) then g.nextMove else old(g.thisMove)
  {
    if g.IsThisMoveLegal() {
      g.UpdatePos(deltaTime);
    }
    if g.IsNextMoveLegal() {
      g.UpdateMoves();
    }
  }
}
