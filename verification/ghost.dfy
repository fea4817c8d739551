/** The ghosts (CGhost with its three personalities CMax, CManhattan and
    CEuclid, modelled as one class with a personality field): target selection,
    collision with the player, enumeration of candidate moves, choice of the best
    one under the personality's norm, and movement with wrap-around. */
module Ghosts {
  import opened Positions
  import opened GameMap
  import opened GameState
  import Manhattan
  import Euclid
  import MaxNorm

  /** Which subclass of `CGhost` a ghost is. */
  datatype Personality = MaxGhost | ManhattanGhost | EuclidGhost

  /** The personality's `getNorm`. The Euclid ghost's is squared, which orders
      vectors as `hypot` does (`Euclid.RootsOrderAsSquares`). */
  function Rank(kind: Personality, v: Pos): (r: real)
    ensures r >= 0.0
    ensures r == 0.0 <==> v == Pos(0.0, 0.0)
  {
    match kind
    case MaxGhost => MaxNorm.Norm(v)
    case ManhattanGhost => Manhattan.Norm(v)
    case EuclidGhost => Euclid.SquaredNorm(v)
  }

  /** The personality's `getGuardPos`: a corner of the board for each. */
  function GuardPos(kind: Personality): (p: Pos)
    ensures p.x == 0.0 || p.x == BoardWidth as real
    ensures p.y == 0.0 || p.y == BoardHeight as real
  {
    match kind
    case MaxGhost => MaxNorm.GuardPos
    case ManhattanGhost => Manhattan.GuardPos
    case EuclidGhost => Euclid.GuardPos
  }

  /** The three personalities guard three different corners. */
  lemma GuardPostsDistinct()
    ensures GuardPos(ManhattanGhost) == Pos(0.0, BoardHeight as real)
    ensures GuardPos(MaxGhost) == Pos(BoardWidth as real, BoardHeight as real)
    ensures GuardPos(EuclidGhost) == Pos(0.0, 0.0)
    ensures GuardPos(ManhattanGhost) != GuardPos(MaxGhost)
    ensures GuardPos(ManhattanGhost) != GuardPos(EuclidGhost)
    ensures GuardPos(MaxGhost) != GuardPos(EuclidGhost)
  {
  }

  /** A candidate move: the tile it leads to and its direction. */
  datatype Move = Move(pos: Pos, dir: Direction)

  /** The tile next to the truncated tile of `pos` in direction `d` (the tile
      itself for `None`), as `findPossibleMoves` builds it. */
  function Neighbour(pos: Pos, d: Direction): (q: Pos)
    ensures q.x == Trunc(pos.x) as real + StepX(d) && q.y == Trunc(pos.y) as real + StepY(d)
  {
    var tile := IntPos(pos);
    match d
    case None => Pos(tile.0 as real, tile.1 as real)
    case Up => Pos(tile.0 as real, tile.1 as real - 1.0)
    case Down => Pos(tile.0 as real, tile.1 as real + 1.0)
    case Left => Pos(tile.0 as real - 1.0, tile.1 as real)
    case Right => Pos(tile.0 as real + 1.0, tile.1 as real)
  }

  /** The order in which `findPossibleMoves` tries the directions. */
  const MoveOrder: seq<Direction> := [Up, Down, Left, Right]

  /** Position in `MoveOrder`. */
  function Priority(d: Direction): nat
  {
    match d
    case Up => 0
    case Down => 1
    case Left => 2
    case Right => 3
    case None => 4
  }

  /** Every legality check at `pos` reads inside the map. */
  predicate AllProbesInMap(pos: Pos)
  {
    ProbeInMap(Up, pos) && ProbeInMap(Down, pos) && ProbeInMap(Left, pos) && ProbeInMap(Right, pos)
  }

  /** Whether `findPossibleMoves` offers direction `d`: it is legal at `pos`
      and does not reverse `heading`. */
  predicate Offered(grid: Grid, pos: Pos, heading: Direction, d: Direction)
    requires IsBoard(grid) && AllProbesInMap(pos)
  {
    assert ProbeInMap(d, pos) by {
      assert ProbedCell(None, pos) == NoRead;
    }
    IsAMoveLegal(grid, d, pos) && heading != Reverse(d)
  }

  /** `moves` with the move towards `d` appended when that direction is offered. */
  function Extend(moves: seq<Move>, grid: Grid, pos: Pos, heading: Direction, d: Direction): (ext: seq<Move>)
    requires IsBoard(grid) && AllProbesInMap(pos)
    ensures |moves| <= |ext| <= |moves| + 1 && ext[..|moves|] == moves
  {
    if Offered(grid, pos, heading, d) then moves + [Move(Neighbour(pos, d), d)] else moves
  }

  /** Reference for `findPossibleMoves`: the directions of `dirs`, in their
      order, that are offered, each with the neighbouring tile it leads to. */
  function Candidates(grid: Grid, pos: Pos, heading: Direction, dirs: seq<Direction>): (moves: seq<Move>)
    requires IsBoard(grid) && AllProbesInMap(pos)
    ensures |moves| <= |dirs|
  {
    if dirs == [] then []
    else Extend(Candidates(grid, pos, heading, dirs[..|dirs| - 1]), grid, pos, heading, dirs[|dirs| - 1])
  }

  /** `MoveOrder`'s candidates: up, down, left and right offered in turn. */
  lemma CandidatesInMoveOrder(grid: Grid, pos: Pos, heading: Direction)
    requires IsBoard(grid) && AllProbesInMap(pos)
    ensures Candidates(grid, pos, heading, MoveOrder) ==
      Extend(Extend(Extend(Extend([], grid, pos, heading, Up), grid, pos, heading, Down), grid, pos, heading, Left),
             grid, pos, heading, Right)
  {
    var up := Candidates(grid, pos, heading, [Up]);
    assert up == Extend([], grid, pos, heading, Up) by {
      assert [Up][..0] == [];
    }
    var down := Candidates(grid, pos, heading, [Up, Down]);
    assert down == Extend(up, grid, pos, heading, Down) by {
      assert [Up, Down][..1] == [Up];
    }
    var left := Candidates(grid, pos, heading, [Up, Down, Left]);
    assert left == Extend(down, grid, pos, heading, Left) by {
      assert [Up, Down, Left][..2] == [Up, Down];
    }
    assert MoveOrder[..3] == [Up, Down, Left];
  }

  /** Every candidate is legal, does not reverse the heading and leads to the
      neighbouring tile. */
  lemma {:induction false} CandidatesAreLegalForwardMoves(grid: Grid, pos: Pos, heading: Direction, dirs: seq<Direction>)
    requires IsBoard(grid) && AllProbesInMap(pos)
    ensures forall mv | mv in Candidates(grid, pos, heading, dirs) ::
      mv.dir in dirs && IsAMoveLegal(grid, mv.dir, pos) && heading != Reverse(mv.dir) && mv.pos == Neighbour(pos, mv.dir)
  {
    if dirs != [] {
      var init := dirs[..|dirs| - 1];
      CandidatesAreLegalForwardMoves(grid, pos, heading, init);
      assert forall d | d in init :: d in dirs;
    }
  }

  /** Every legal direction of `dirs` that does not reverse the heading is a candidate. */
  lemma {:induction false} LegalForwardMovesAreCandidates(grid: Grid, pos: Pos, heading: Direction, dirs: seq<Direction>)
    requires IsBoard(grid) && AllProbesInMap(pos)
    ensures forall d | d in dirs && IsAMoveLegal(grid, d, pos) && heading != Reverse(d) ::
      Move(Neighbour(pos, d), d) in Candidates(grid, pos, heading, dirs)
  {
    if dirs != [] {
      var init := dirs[..|dirs| - 1];
      LegalForwardMovesAreCandidates(grid, pos, heading, init);
      assert forall d | d in dirs :: d in init || d == dirs[|dirs| - 1];
    }
  }

  /** Directions listed strictly in `MoveOrder`'s order. */
  predicate InOrder(dirs: seq<Direction>)
  {
    forall i, j | 0 <= i < j < |dirs| :: Priority(dirs[i]) < Priority(dirs[j])
  }

  /** The directions of a list of moves. */
  function Dirs(moves: seq<Move>): (dirs: seq<Direction>)
    ensures |dirs| == |moves| && forall i | 0 <= i < |moves| :: dirs[i] == moves[i].dir
  {
    seq(|moves|, i requires 0 <= i < |moves| => moves[i].dir)
  }

  /** Candidates keep the order of `dirs`. */
  lemma {:induction false} CandidatesKeepOrder(grid: Grid, pos: Pos, heading: Direction, dirs: seq<Direction>)
    requires IsBoard(grid) && AllProbesInMap(pos) && InOrder(dirs)
    ensures InOrder(Dirs(Candidates(grid, pos, heading, dirs)))
  {
    if dirs != [] {
      var init := dirs[..|dirs| - 1];
      var d := dirs[|dirs| - 1];
      var front := Candidates(grid, pos, heading, init);
      CandidatesKeepOrder(grid, pos, heading, init);
      assert forall mv | mv in front :: Priority(mv.dir) < Priority(d) by {
        CandidatesAreLegalForwardMoves(grid, pos, heading, init);
      }
      if Offered(grid, pos, heading, d) {
        var moves := front + [Move(Neighbour(pos, d), d)];
        assert moves == Candidates(grid, pos, heading, dirs);
        forall i, j | 0 <= i < j < |moves| ensures Priority(Dirs(moves)[i]) < Priority(Dirs(moves)[j]) {
          assert moves[i] == front[i] && moves[i] in front;
          if j < |front| {
            assert moves[j] == front[j];
            assert Dirs(front)[i] == front[i].dir && Dirs(front)[j] == front[j].dir;
          }
        }
      }
    }
  }

  /** From any position at most four candidates come out, in the order up,
      down, left, right. */
  lemma CandidateOrder(grid: Grid, pos: Pos, heading: Direction)
    requires IsBoard(grid) && AllProbesInMap(pos)
    ensures var moves := Candidates(grid, pos, heading, MoveOrder);
      |moves| <= 4 && InOrder(Dirs(moves))
  {
    CandidatesKeepOrder(grid, pos, heading, MoveOrder);
  }

  /** `pickBestMove`'s replacement test: in chase a strictly nearer candidate
      replaces the current choice, in powerup a strictly farther one. */
  predicate Beats(kind: Personality, mode: GameMode, player: Pos, cand: Move, cur: Move)
    ensures Beats(kind, mode, player, cand, cur) ==> mode == Chase || mode == PowerUp
    ensures Beats(kind, mode, player, cand, cur) ==> Dist(kind, player, cand) != Dist(kind, player, cur)
  {
    (mode == Chase && Rank(kind, Sub(cur.pos, player)) > Rank(kind, Sub(cand.pos, player))) ||
    (mode == PowerUp && Rank(kind, Sub(cur.pos, player)) < Rank(kind, Sub(cand.pos, player)))
  }

  /** The index `pickBestMove` holds after scanning the first `n` candidates;
      the scan starts from candidate 0. */
  function Best(kind: Personality, mode: GameMode, player: Pos, moves: seq<Move>, n: nat): (b: nat)
    requires 0 < |moves| && n <= |moves|
    ensures b < |moves| && (0 < n ==> b < n)
  {
    if n == 0 then 0
    else
      var b := Best(kind, mode, player, moves, n - 1);
      if Beats(kind, mode, player, moves[n - 1], moves[b]) then n - 1 else b
  }

  /** The distance that ranks a candidate. */
  function Dist(kind: Personality, player: Pos, mv: Move): real
  {
    Rank(kind, Sub(mv.pos, player))
  }

  /** In chase the choice is nearest to the player, and every earlier
      candidate is strictly farther: the earliest nearest candidate wins. */
  lemma {:induction false} BestIsEarliestNearestInChase(kind: Personality, player: Pos, moves: seq<Move>, n: nat)
    requires 0 < n <= |moves|
    ensures var b := Best(kind, Chase, player, moves, n);
      (forall j | 0 <= j < n :: Dist(kind, player, moves[b]) <= Dist(kind, player, moves[j])) &&
      (forall j | 0 <= j < b :: Dist(kind, player, moves[b]) < Dist(kind, player, moves[j]))
  {
    if n > 1 {
      BestIsEarliestNearestInChase(kind, player, moves, n - 1);
    }
  }

  /** In powerup the choice is farthest from the player, and every earlier
      candidate is strictly nearer: the earliest farthest candidate wins. */
  lemma {:induction false} BestIsEarliestFarthestInPowerUp(kind: Personality, player: Pos, moves: seq<Move>, n: nat)
    requires 0 < n <= |moves|
    ensures var b := Best(kind, PowerUp, player, moves, n);
      (forall j | 0 <= j < n :: Dist(kind, player, moves[b]) >= Dist(kind, player, moves[j])) &&
      (forall j | 0 <= j < b :: Dist(kind, player, moves[b]) > Dist(kind, player, moves[j]))
  {
    if n > 1 {
      BestIsEarliestFarthestInPowerUp(kind, player, moves, n - 1);
    }
  }

  /** In guard and lightsout mode the first candidate is kept. */
  lemma {:induction false} BestIsFirstInOtherModes(kind: Personality, mode: GameMode, player: Pos, moves: seq<Move>, n: nat)
    requires mode != Chase && mode != PowerUp && 0 < |moves| && n <= |moves|
    ensures Best(kind, mode, player, moves, n) == 0
  {
    if n > 0 {
      BestIsFirstInOtherModes(kind, mode, player, moves, n - 1);
    }
  }

  /** The two properties of the chase choice pin it down: no other index has them. */
  lemma ChaseChoiceIsUnique(kind: Personality, player: Pos, moves: seq<Move>, k: nat)
    requires 0 < |moves| && k < |moves|
    requires forall j | 0 <= j < |moves| :: Dist(kind, player, moves[k]) <= Dist(kind, player, moves[j])
    requires forall j | 0 <= j < k :: Dist(kind, player, moves[k]) < Dist(kind, player, moves[j])
    ensures k == Best(kind, Chase, player, moves, |moves|)
  {
    BestIsEarliestNearestInChase(kind, player, moves, |moves|);
  }

  /** Whether a position lies in the box that `updatePos` leaves alone. */
  predicate InWrapBox(p: Pos)
  {
    -1.0 <= p.x <= BoardWidth as real && -1.0 <= p.y <= BoardHeight as real
  }

  /** The edge wrap of `CGhost::updatePos`: at most one correction, by one
      board width or height, and none inside the box. */
  function Wrap(p: Pos): (q: Pos)
    ensures InWrapBox(p) ==> q == p
    ensures q == p ||
            (q.y == p.y && (q.x == p.x + BoardWidth as real || q.x == p.x - BoardWidth as real)) ||
            (q.x == p.x && (q.y == p.y + BoardHeight as real || q.y == p.y - BoardHeight as real))
    ensures !InWrapBox(p) ==> q != p
    ensures (q.x > p.x ==> p.x < -1.0) && (q.x < p.x ==> p.x > BoardWidth as real)
    ensures (q.y > p.y ==> p.y < -1.0) && (q.y < p.y ==> p.y > BoardHeight as real)
  {
    if p.x < -1.0 then p.(x := p.x + BoardWidth as real)
    else if p.y < -1.0 then p.(y := p.y + BoardHeight as real)
    else if p.x > BoardWidth as real then p.(x := p.x - BoardWidth as real)
    else if p.y > BoardHeight as real then p.(y := p.y - BoardHeight as real)
    else p
  }

  /** A position off the box on one axis only, by less than a board, comes back
      into the box. */
  lemma WrapReturnsSingleAxisOvershoot(p: Pos)
    requires (-1.0 <= p.y <= BoardHeight as real && -1.0 - BoardWidth as real <= p.x <= 2.0 * BoardWidth as real) ||
             (-1.0 <= p.x <= BoardWidth as real && -1.0 - BoardHeight as real <= p.y <= 2.0 * BoardHeight as real)
    ensures InWrapBox(Wrap(p))
  {
  }

  /** A position off the box on both axes is corrected on x only. */
  lemma WrapFixesOneAxisPerCall()
    ensures Wrap(Pos(-2.0, -2.0)) == Pos(26.0, -2.0)
    ensures !InWrapBox(Wrap(Pos(-2.0, -2.0)))
  {
  }

  /** Ghost speed: `PLAYER_SPEED`, three quarters of it in powerup mode. */
  function GhostSpeed(mode: GameMode): (speed: real)
    ensures mode == PowerUp ==> speed == 3.0
    ensures mode != PowerUp ==> speed == PlayerSpeed
  {
    if mode == PowerUp then PlayerSpeed * 0.75 else PlayerSpeed
  }

  /** How far a ghost travels in `deltaTime` seconds in the given mode. */
  function GhostTravel(mode: GameMode, deltaTime: real): (dist: real)
    ensures 0.0 <= deltaTime ==> 0.0 <= dist <= PlayerSpeed * deltaTime
    ensures mode == PowerUp ==> 4.0 * dist == 3.0 * PlayerSpeed * deltaTime
  {
    if mode == PowerUp then 3.0 * deltaTime else 4.0 * deltaTime
  }

  /** The speed `update` computes, times the frame time, is `GhostTravel`. */
  lemma SpeedIsGhostSpeed(p: Pos, d: Direction, speed: real, mode: GameMode, deltaTime: real)
    requires speed == GhostSpeed(mode)
    ensures Wrap(Advance(p, d, speed * deltaTime)) == Wrap(Advance(p, d, GhostTravel(mode, deltaTime)))
  {
    if mode == PowerUp {
      assert speed * deltaTime == 3.0 * deltaTime;
    } else {
      assert speed * deltaTime == 4.0 * deltaTime;
    }
  }

  /** Where the ghost stands after `update`'s collision step. */
  function AfterCollision(pos: Pos, start: Pos, player: Pos, mode: GameMode): (q: Pos)
    ensures q == pos || q == start
    ensures q != pos ==> mode == PowerUp && PosEq(pos, player)
  {
    if PosEq(pos, player) && mode == PowerUp then start else pos
  }

  class Ghost {
    const kind: Personality
    const startPos: Pos
    var currentPos: Pos
    var nextPos: Pos
    var targetPos: Pos
    var direction: Direction

    /** A ghost standing at its spawn position, not moving. */
    constructor(kind: Personality, pos: Pos)
      ensures this.kind == kind && startPos == pos
      ensures currentPos == pos && nextPos == pos && targetPos == pos && direction == None
    {
      this.kind := kind;
      startPos := pos;
      currentPos := pos;
      nextPos := pos;
      targetPos := pos;
      direction := None;
    }

    /** `updatePos`: move `speed * deltaTime` along `direction`, then wrap. */
    method UpdatePos(deltaTime: real, speed: real)
      modifies this`currentPos
      ensures currentPos == Wrap(Advance(old(currentPos), direction, speed * deltaTime))
    {
      if direction == Up {
        currentPos := currentPos.(y := currentPos.y - speed * deltaTime);
      } else if direction == Down {
        currentPos := currentPos.(y := currentPos.y + speed * deltaTime);
      } else if direction == Left {
        currentPos := currentPos.(x := currentPos.x - speed * deltaTime);
      } else if direction == Right {
        currentPos := currentPos.(x := currentPos.x + speed * deltaTime);
      }

      if currentPos.x < -1.0 {
        currentPos := currentPos.(x := currentPos.x + BoardWidth as real);
      } else if currentPos.y < -1.0 {
        currentPos := currentPos.(y := currentPos.y + BoardHeight as real);
      } else if currentPos.x > BoardWidth as real {
        currentPos := currentPos.(x := currentPos.x - BoardWidth as real);
      } else if currentPos.y > BoardHeight as real {
        currentPos := currentPos.(y := currentPos.y - BoardHeight as real);
      }
    }

    /** `setTargetPos`: the guard post in guard mode, the player otherwise. */
    method SetTargetPos(g: GameState)
      modifies this`targetPos
      ensures g.gamemode == Guard ==> targetPos == GuardPos(kind)
      ensures g.gamemode != Guard ==> targetPos == g.playerPos
    {
      if g.gamemode == Guard {
        targetPos := GuardPos(kind);
      } else {
        targetPos := g.playerPos;
      }
    }

    /** `handlePlayerCollision`: in powerup the ghost is eaten (400 points, back
        to its start); otherwise the game is over and the score stays. */
    method HandlePlayerCollision(g: GameState)
      modifies this`currentPos, g`score, g`screen
      ensures g.gamemode == PowerUp ==>
        g.score == old(g.score) + 400 && currentPos == startPos && g.screen == old(g.screen)
      ensures g.gamemode != PowerUp ==>
        g.screen == GameOver && g.score == old(g.score) && currentPos == old(currentPos)
    {
      if g.gamemode == PowerUp {
        g.score := g.score + 400;
        currentPos := startPos;
      } else {
        g.screen := GameOver;
      }
    }

    /** `findPossibleMoves`: the legal, non-reversing moves from the current
        position, in the order up, down, left, right. */
    method FindPossibleMoves(g: GameState) returns (moves: seq<Move>)
      requires g.Valid() && AllProbesInMap(currentPos)
      ensures moves == Candidates(g.gameMap, currentPos, direction, MoveOrder)
    {
      var tile := IntPos(currentPos);
      ghost var grid, pos := g.gameMap, currentPos;
      moves := [];
      if IsAMoveLegal(g.gameMap, Up, currentPos) && direction != Down {
        moves := moves + [Move(Pos(tile.0 as real, tile.1 as real - 1.0), Up)];
      }
      ghost var afterUp := moves;
      assert afterUp == Extend([], grid, pos, direction, Up);
      if IsAMoveLegal(g.gameMap, Down, currentPos) && direction != Up {
        moves := moves + [Move(Pos(tile.0 as real, tile.1 as real + 1.0), Down)];
      }
      ghost var afterDown := moves;
      assert afterDown == Extend(afterUp, grid, pos, direction, Down);
      if IsAMoveLegal(g.gameMap, Left, currentPos) && direction != Right {
        moves := moves + [Move(Pos(tile.0 as real - 1.0, tile.1 as real), Left)];
      }
      ghost var afterLeft := moves;
      assert afterLeft == Extend(afterDown, grid, pos, direction, Left);
      if IsAMoveLegal(g.gameMap, Right, currentPos) && direction != Left {
        moves := moves + [Move(Pos(tile.0 as real + 1.0, tile.1 as real), Right)];
      }
      assert moves == Extend(afterLeft, grid, pos, direction, Right);
      CandidatesInMoveOrder(grid, pos, direction);
    }

    /** `pickBestMove`: no candidate stops the ghost; otherwise the scan keeps
        the candidate `Best` names. */
    method PickBestMove(g: GameState, moves: seq<Move>)
      modifies this`direction, this`nextPos
      ensures moves == [] ==> direction == None && nextPos == old(nextPos)
      ensures moves != [] ==> Move(nextPos, direction) == moves[Best(kind, g.gamemode, g.playerPos, moves, |moves|)]
    {
      if moves != [] {
        direction := moves[0].dir;
        nextPos := moves[0].pos;
      } else {
        direction := None;
      }
      for i := 0 to |moves|
        invariant moves == [] ==> direction == None && nextPos == old(nextPos)
        invariant moves != [] ==> Move(nextPos, direction) == moves[Best(kind, g.gamemode, g.playerPos, moves, i)]
      {
        var mv := moves[i];
        if g.gamemode == Chase && Rank(kind, Sub(nextPos, g.playerPos)) > Rank(kind, Sub(mv.pos, g.playerPos)) {
          direction := mv.dir;
          nextPos := mv.pos;
        } else if g.gamemode == PowerUp && Rank(kind, Sub(nextPos, g.playerPos)) < Rank(kind, Sub(mv.pos, g.playerPos)) {
          direction := mv.dir;
          nextPos := mv.pos;
        }
      }
    }

    /** `getNextPos`: enumerate the candidates, then pick one. */
    method GetNextPos(g: GameState)
      requires g.Valid() && AllProbesInMap(currentPos)
      modifies this`direction, this`nextPos
      ensures var moves := Candidates(g.gameMap, currentPos, old(direction), MoveOrder);
        (moves == [] ==> direction == None && nextPos == old(nextPos)) &&
        (moves != [] ==> Move(nextPos, direction) == moves[Best(kind, g.gamemode, g.playerPos, moves, |moves|)])
    {
      var moves := FindPossibleMoves(g);
      PickBestMove(g, moves);
    }

    /** `update`: choose the target, resolve a collision with the player,
        choose the next move and take it. */
    method Update(g: GameState, deltaTime: real)
      requires g.Valid() && AllProbesInMap(AfterCollision(currentPos, startPos, g.playerPos, g.gamemode))
      modifies this`targetPos, this`currentPos, this`nextPos, this`direction, g`score, g`screen
      ensures targetPos == (if g.gamemode == Guard then GuardPos(kind) else g.playerPos)
      ensures var hit := PosEq(old(currentPos), g.playerPos);
        g.score == old(g.score) + (if hit && g.gamemode == PowerUp then 400 else 0) &&
        g.screen == (if hit && g.gamemode != PowerUp then GameOver else old(g.screen))
      ensures var p := AfterCollision(old(currentPos), startPos, g.playerPos, g.gamemode);
        var moves := Candidates(g.gameMap, p, old(direction), MoveOrder);
        (moves == [] ==> direction == None && nextPos == old(nextPos)) &&
        (moves != [] ==> Move(nextPos, direction) == moves[Best(kind, g.gamemode, g.playerPos, moves, |moves|)])
      ensures currentPos ==
        Wrap(Advance(AfterCollision(old(currentPos), startPos, g.playerPos, g.gamemode), direction, GhostTravel(g.gamemode, deltaTime)))
    {
      var speed := PlayerSpeed;
      if g.gamemode == PowerUp {
        speed := speed * 0.75;
      }
      SetTargetPos(g);
      if PosEq(currentPos, g.playerPos) {
        HandlePlayerCollision(g);
      }
      GetNextPos(g);
      ghost var p, mode := currentPos, g.gamemode;
      UpdatePos(deltaTime, speed);
      SpeedIsGhostSpeed(p, direction, speed, g.gamemode, deltaTime);
      assert p == AfterCollision(old(currentPos), startPos, g.playerPos, g.gamemode);
    }
  }
}
