/** The shared game state (CGameState): the player's position and buffered moves,
    the score, the mode, and the move-legality oracle used by the player and the
    ghosts. */
module GameState {
  import opened Positions
  import opened GameMap

  /** `CDirection`. */
  datatype Direction = None | Up | Left | Down | Right

  /** `CGameState::CScreen`. */
  datatype Screen = Start | Playing | GameOver | ScoreBoard

  /** `CGameState::CGameMode`. */
  datatype GameMode = Chase | Guard | PowerUp | LightsOut

  /** How close to the left or top edge of a tile the left and up checks start. */
  const Threshold: real := 0.005

  /** `PLAYER_SPEED`, in tiles per second. */
  const PlayerSpeed: real := 4.0

  /** `INITIAL_POWERUP_TIME`, in seconds. */
  const InitialPowerUpTime: real := 5.0

  /** The direction that undoes `d`. */
  function Reverse(d: Direction): (r: Direction)
    ensures (r == None) == (d == None)
    ensures d != None ==> r != d
    ensures StepX(r) == -StepX(d) && StepY(r) == -StepY(d)
  {
    match d
    case None => None
    case Up => Down
    case Down => Up
    case Left => Right
    case Right => Left
  }

  /** Reversing twice gives the direction back. */
  lemma ReverseIsInvolution(d: Direction)
    ensures Reverse(Reverse(d)) == d
  {
  }

  /** Unit step of a direction along x and y (y grows downwards). */
  function StepX(d: Direction): real
  {
    if d == Left then -1.0 else if d == Right then 1.0 else 0.0
  }

  function StepY(d: Direction): real
  {
    if d == Up then -1.0 else if d == Down then 1.0 else 0.0
  }

  /** Moving `dist` tiles along `d`, as `updatePos` of the player and of a ghost
      do: the coordinate on the move's axis changes, nothing else. */
  function Advance(p: Pos, d: Direction, dist: real): (q: Pos)
    ensures d == None ==> q == p
    ensures d == Up || d == Down ==> q.x == p.x
    ensures d == Left || d == Right ==> q.y == p.y
    ensures d == Down || d == Right ==> (q.x - p.x) + (q.y - p.y) == dist
    ensures d == Up || d == Left ==> (q.x - p.x) + (q.y - p.y) == -dist
  {
    match d
    case None => p
    case Up => p.(y := p.y - dist)
    case Down => p.(y := p.y + dist)
    case Left => p.(x := p.x - dist)
    case Right => p.(x := p.x + dist)
  }

  /** The map cell `isAMoveLegal` reads, or `NoRead` when its guards skip the read. */
  datatype Probe = NoRead | Read(row: int, col: int)

  function ProbedCell(move: Direction, pos: Pos): (probe: Probe)
    ensures probe.Read? ==> move != None
    ensures probe.Read? && (move == Left || move == Right) ==> probe.row == Trunc(pos.y)
    ensures probe.Read? && (move == Up || move == Down) ==> probe.col == Trunc(pos.x)
  {
    match move
    case None => NoRead
    case Left =>
      if pos.x - pos.x.Floor as real < Threshold && Trunc(pos.x) != 0 then Read(Trunc(pos.y), pos.x.Floor - 1) else NoRead
    case Right =>
      if Trunc(pos.x) != BoardWidth then Read(Trunc(pos.y), Trunc(pos.x) + 1) else NoRead
    case Up =>
      if pos.y - pos.y.Floor as real < Threshold && Trunc(pos.y) != 0 then Read(pos.y.Floor - 1, Trunc(pos.x)) else NoRead
    case Down =>
      if Trunc(pos.y) != BoardHeight then Read(Trunc(pos.y) + 1, Trunc(pos.x)) else NoRead
  }

  /** The read the legality check makes, if any, stays inside the map. The
      source reads outside the array where this fails (for instance at the
      right-hand tunnel mouth), so it is a precondition of the check. */
  predicate ProbeInMap(move: Direction, pos: Pos)
  {
    var probe := ProbedCell(move, pos);
    probe.Read? ==> OnBoard(probe.row, probe.col)
  }

  /** `CGameState::isAMoveLegal(move, pos)`: a move is refused only when the
      guarded neighbour cell is a wall. */
  function IsAMoveLegal(grid: Grid, move: Direction, pos: Pos): (legal: bool)
    requires IsBoard(grid) && ProbeInMap(move, pos)
    ensures move == None ==> legal
    ensures !legal <==> ProbedCell(move, pos).Read? && grid[ProbedCell(move, pos).row][ProbedCell(move, pos).col] == W
  {
    if move == Left && pos.x - pos.x.Floor as real < Threshold && Trunc(pos.x) != 0 &&
       grid[Trunc(pos.y)][pos.x.Floor - 1] == W then false
    else if move == Right && Trunc(pos.x) != BoardWidth &&
       grid[Trunc(pos.y)][Trunc(pos.x) + 1] == W then false
    else if move == Up && pos.y - pos.y.Floor as real < Threshold && Trunc(pos.y) != 0 &&
       grid[pos.y.Floor - 1][Trunc(pos.x)] == W then false
    else if move == Down && Trunc(pos.y) != BoardHeight &&
       grid[Trunc(pos.y) + 1][Trunc(pos.x)] == W then false
    else true
  }

  /** The tile of a position, when it lies on the board and is not a wall. */
  predicate OnOpenTile(grid: Grid, p: Pos)
    requires IsBoard(grid)
  {
    0.0 <= p.x && 0.0 <= p.y && OnBoard(Trunc(p.y), Trunc(p.x)) && grid[Trunc(p.y)][Trunc(p.x)] != W
  }

  /** A legal step to the right or downwards shorter than a tile never enters a
      wall: both checks look one whole tile ahead. */
  lemma RightOrDownStepStaysOpen(grid: Grid, pos: Pos, move: Direction, dist: real)
    requires IsBoard(grid) && (move == Right || move == Down)
    requires OnOpenTile(grid, pos) && ProbeInMap(move, pos) && IsAMoveLegal(grid, move, pos)
    requires 0.0 <= dist < 1.0
    ensures OnOpenTile(grid, Advance(pos, move, dist))
  {
    var q := Advance(pos, move, dist);
    if move == Right {
      assert Trunc(q.x) == Trunc(pos.x) || Trunc(q.x) == Trunc(pos.x) + 1;
    } else {
      assert Trunc(q.y) == Trunc(pos.y) || Trunc(q.y) == Trunc(pos.y) + 1;
    }
  }

  /** A legal step to the left or upwards keeps off walls only when it is no
      longer than `Threshold`: the checks look at the neighbour only within
      `Threshold` of the tile's edge. */
  lemma LeftOrUpStepStaysOpen(grid: Grid, pos: Pos, move: Direction, dist: real)
    requires IsBoard(grid) && (move == Left || move == Up)
    requires OnOpenTile(grid, pos) && ProbeInMap(move, pos) && IsAMoveLegal(grid, move, pos)
    requires 0.0 <= dist <= Threshold
    ensures OnOpenTile(grid, Advance(pos, move, dist)) || (move == Left && Advance(pos, move, dist).x < 0.0) ||
            (move == Up && Advance(pos, move, dist).y < 0.0)
  {
    var q := Advance(pos, move, dist);
    if move == Left && 0.0 <= q.x {
      if pos.x - pos.x.Floor as real >= Threshold {
        assert q.x.Floor == pos.x.Floor;
      } else if Trunc(pos.x) != 0 {
        assert q.x.Floor == pos.x.Floor || q.x.Floor == pos.x.Floor - 1;
      } else {
        assert q.x.Floor == 0;
      }
    } else if move == Up && 0.0 <= q.y {
      if pos.y - pos.y.Floor as real >= Threshold {
        assert q.y.Floor == pos.y.Floor;
      } else if Trunc(pos.y) != 0 {
        assert q.y.Floor == pos.y.Floor || q.y.Floor == pos.y.Floor - 1;
      } else {
        assert q.y.Floor == 0;
      }
    }
  }

  /** One frame at 1/60 s moves the player 4/60 tiles; from x = 6.03 on row 2 of
      the shipped map the left move is legal, and the step ends inside the wall
      at column 5. */
  lemma LeftStepCanEnterWall()
    ensures var pos := Pos(6.03, 2.5);
      ProbeInMap(Left, pos) && OnOpenTile(Template, pos) && IsAMoveLegal(Template, Left, pos) &&
      Advance(pos, Left, PlayerSpeed / 60.0).x > 0.0 && !OnOpenTile(Template, Advance(pos, Left, PlayerSpeed / 60.0))
  {
    TemplateIsBoard();
    var pos := Pos(6.03, 2.5);
    assert Trunc(pos.x) == 6 && Trunc(pos.y) == 2 && pos.x.Floor == 6;
    assert Template[2] == Row02;
    var q := Advance(pos, Left, PlayerSpeed / 60.0);
    assert Trunc(q.x) == 5;
  }

  /** On the tunnel row, a position in the last column asks the right check to
      read column 28, one past the end of the row. */
  lemma TunnelMouthReadsOutsideRow()
    ensures ProbedCell(Right, Pos(27.5, 14.5)) == Read(14, BoardWidth)
    ensures !ProbeInMap(Right, Pos(27.5, 14.5))
  {
    assert Trunc(27.5) == 27 && Trunc(14.5) == 14;
  }

  /** `CGameState`, with `CGameMap`'s table and coin counter as two fields. */
  class GameState {
    var level: int
    var score: int
    var playerPos: Pos
    var powerUpTime: real
    var powerUpRemaining: real
    var screen: Screen
    var thisMove: Direction
    var nextMove: Direction
    var gamemode: GameMode
    var gameMap: Grid
    var coinCount: int

    predicate Valid()
      reads this
    {
      IsBoard(gameMap)
    }

    /** The header's initial values. `gamemode` and `playerPos` have none there,
        so they are parameters. */
    constructor(mode: GameMode, start: Pos)
      ensures Valid()
      ensures level == 1 && score == 0 && playerPos == start
      ensures powerUpTime == InitialPowerUpTime && powerUpRemaining == 0.0
      ensures screen == Start && thisMove == None && nextMove == None && gamemode == mode
      ensures gameMap == Template && coinCount == InitialCoinCount
    {
      TemplateIsBoard();
      level := 1;
      score := 0;
      playerPos := start;
      powerUpTime := InitialPowerUpTime;
      powerUpRemaining := 0.0;
      screen := Start;
      thisMove := None;
      nextMove := None;
      gamemode := mode;
      gameMap := Template;
      coinCount := InitialCoinCount;
    }

    /** `isNextMoveLegal`: the buffered move, checked at the player's position. */
    function IsNextMoveLegal(): (legal: bool)
      reads this
      requires Valid() && ProbeInMap(nextMove, playerPos)
      ensures legal == IsAMoveLegal(gameMap, nextMove, playerPos)
    {
      IsAMoveLegal(gameMap, nextMove, playerPos)
    }

    /** `isThisMoveLegal`: the current move, checked at the player's position. */
    function IsThisMoveLegal(): (legal: bool)
      reads this
      requires Valid() && ProbeInMap(thisMove, playerPos)
      ensures legal == IsAMoveLegal(gameMap, thisMove, playerPos)
    {
      IsAMoveLegal(gameMap, thisMove, playerPos)
    }

    /** `updateMoves`: the buffered move becomes the current one. */
    method UpdateMoves()
      modifies this`thisMove
      ensures thisMove == nextMove
    {
      thisMove := nextMove;
    }

    /** `updatePos`: the player moves `PLAYER_SPEED * deltaTime` along `thisMove`,
        with no wrap at the board's edges. */
    method UpdatePos(deltaTime: real)
      modifies this`playerPos
      ensures playerPos == Advance(old(playerPos), thisMove, PlayerSpeed * deltaTime)
    {
      if thisMove == Up {
        playerPos := playerPos.(y := playerPos.y - PlayerSpeed * deltaTime);
      }
      if thisMove == Down {
        playerPos := playerPos.(y := playerPos.y + PlayerSpeed * deltaTime);
      }
      if thisMove == Left {
        playerPos := playerPos.(x := playerPos.x - PlayerSpeed * deltaTime);
      }
      if thisMove == Right {
        playerPos := playerPos.(x := playerPos.x + PlayerSpeed * deltaTime);
      }
    }
  }
}
