# Pac-Man game core in Dafny

A Dafny model of the per-tick logic of a small SDL Pac-Man clone (`progtest/seme/src`). It covers:

- **Board positions** (`CPos`): truncation to a tile, and the rounded comparison used for every collision.
- **The maze** (`CGameMap`): a constant 31 × 28 table of cells and the initial coin counter.
- **The game state** (`CGameState`): the move-legality check, the buffered player moves and player motion.
- **The ghosts** (`CGhost` with the personalities `CMax`, `CManhattan` and `CEuclid`):
  - target choice and collision with the player;
  - enumeration of candidate moves;
  - selection of a move under the personality's vector norm;
  - movement with edge wrap.
- **The collectibles** (`CCollectible`, `CCoin`, `CPowerUp`): an effect fires on overlap, then the item is marked collected.
- **The driver** (`main.cpp`): the `setup` scan that builds the game objects and the player start from the map, and the movement step of `update`.

Coordinates are Dafny `real`s:

- `static_cast<int>` is truncation toward zero (`Positions.Trunc`);
- `std::round` is rounding half away from zero (`Positions.Round`);
- `floor` is `.Floor`.

Objects whose fields the source updates in place become classes: `GameState.GameState`, `Ghosts.Ghost` and `Collectibles.Collectible`. Their methods list the fields they change in `modifies` clauses. Most methods are proved against a pure function (`Ghosts.Candidates`, `Ghosts.Best`, `Collectibles.Effect`, `Collectibles.Touch`, `Game.GridSpawns`, `Game.Moved`), and the properties the game relies on are proved about those functions. `GameState.GameState.UpdateMoves`, `Ghosts.Ghost.SetTargetPos` and `Ghosts.Ghost.HandlePlayerCollision` are the exceptions: they state their new fields one by one.

The modules and their files:

| module | file | source |
|---|---|---|
| `Positions` | positions.dfy | CPos.cpp, CPos.h |
| `Euclid`, `Manhattan`, `MaxNorm` | euclid.dfy, manhattan.dfy, maxnorm.dfy | CEuclid.cpp, CManhattan.cpp, CMax.cpp |
| `GameMap` | gamemap.dfy | CGameMap.h |
| `GameState` | gamestate.dfy | CGameState.cpp, CGameState.h, config.h |
| `Ghosts` | ghost.dfy | CGhost.cpp |
| `Collectibles` | collectibles.dfy | CCollectible.cpp, CCoin.cpp, CPowerUp.cpp |
| `Game` | game.dfy | main.cpp |

The maze is written as 31 row constants, `GameMap.Row00` to `GameMap.Row30`. `GameMap.Count` counts the cells of one kind in a row, and `GameMap.CountRows` counts them over the first rows of the table. The per-row lemmas `RowNNCoins` and `RowNNPlain` are helpers of the map lemmas listed below.

## Model

| member | source | states |
|---|---|---|
| Positions.Trunc | progtest/seme/src/CPos.cpp:7 | `static_cast<int>` truncates toward zero: the result is the floor for non-negative input and the ceiling for negative input |
| Positions.Round | progtest/seme/src/CPos.cpp:12 | `round` gives the nearest integer, within 0.5; an exact half goes away from zero |
| Positions.IntPos | progtest/seme/src/CPos.cpp:5-8 | `getIntPos` is the floor of each coordinate when that coordinate is non-negative |
| Positions.Sub | progtest/seme/src/CPos.h:33-37 | `operator-` is the component-wise difference: adding `q` back gives `p` |
| Positions.PosEq | progtest/seme/src/CPos.cpp:10-13 | positions that compare equal are less than one unit apart on each axis |
| Positions.PosEqIsEquivalence | progtest/seme/src/CPos.cpp:10-13 | the rounded comparison is reflexive, symmetric and transitive |
| Positions.PosEqTilesAdjacent | progtest/seme/src/CPos.cpp:10-13 | positions that compare equal are at most one unit apart on each axis, and their truncated tiles are equal or adjacent |
| Positions.NearbyPositionsCanDiffer | progtest/seme/src/CPos.cpp:12 | 5.49 and 5.51 compare unequal although they are 0.02 apart |
| Positions.PosEqDoesNotFixTile | progtest/seme/src/CPos.cpp:7-12 | 5.6 and 6.2 compare equal but truncate to tiles 5 and 6 |
| Positions.TruncIsNotFloorBelowZero | progtest/seme/src/CPos.cpp:7 | truncation differs from floor below zero: -0.5 truncates to 0 and floors to -1 |
| Manhattan.Norm | progtest/seme/src/CManhattan.cpp:3-6 | the L1 norm is non-negative, zero exactly for the zero vector, and at least each absolute coordinate |
| Manhattan.NormSymmetries | progtest/seme/src/CManhattan.cpp:5 | the L1 norm is unchanged by negating either coordinate or swapping them |
| Manhattan.NormTriangle | progtest/seme/src/CManhattan.cpp:5 | the L1 norm satisfies the triangle inequality |
| Manhattan.NormExample | progtest/seme/src/CManhattan.cpp:5 | the L1 norm of (3, 4) is 7 |
| MaxNorm.Norm | progtest/seme/src/CMax.cpp:3-6 | the max norm equals one of the absolute coordinates and is at least both; it is zero exactly for the zero vector |
| MaxNorm.NormSymmetries | progtest/seme/src/CMax.cpp:5 | the max norm is unchanged by negating either coordinate or swapping them |
| MaxNorm.NormExample | progtest/seme/src/CMax.cpp:5 | the max norm of (3, 4) is 4 |
| Euclid.SquaredNorm | progtest/seme/src/CEuclid.cpp:3-6 | the squared L2 length is non-negative, zero exactly for the zero vector, and at least each squared coordinate |
| Euclid.RootsOrderAsSquares | progtest/seme/src/CEuclid.cpp:5 | non-negative lengths compare exactly as their squares do, so ranking by squared length makes the same choices as ranking by `hypot` |
| Euclid.SquareSign | progtest/seme/src/CEuclid.cpp:5 | a square is non-negative, and zero only for zero |
| Euclid.SquareBelow | progtest/seme/src/CEuclid.cpp:5 | squaring keeps a strict order on non-negative reals |
| Euclid.ScaleStrict | progtest/seme/src/CEuclid.cpp:5 | multiplying by a positive factor keeps a strict order |
| Euclid.NormExample | progtest/seme/src/CEuclid.cpp:5 | the squared L2 length of (3, 4) is 5 squared |
| GameMap.TemplateRow | progtest/seme/src/CGameMap.h:23-55 | each row of the map has 28 cells; `GameMap.Template` is the table of these rows |
| GameMap.TemplateIsBoard | progtest/seme/src/CGameMap.h:2-55 | the table has 31 rows of 28 cells |
| GameMap.BorderRowsAreWalls | progtest/seme/src/CGameMap.h:24-54 | rows 0 and 30 are all walls |
| GameMap.TunnelIsTheOnlyOpening | progtest/seme/src/CGameMap.h:24-54 | columns 0 and 27 are walls in every row except row 14, whose two end cells are empty |
| GameMap.TemplateCoinCount | progtest/seme/src/CGameMap.h:10-55 | the table holds exactly 240 coin cells, the initial `coinCount` |
| GameMap.StartCellIsUnique | progtest/seme/src/CGameMap.h:47 | the table has exactly one player start cell, at row 23, column 13 |
| GameMap.GhostStartsAreUnique | progtest/seme/src/CGameMap.h:38 | the table has exactly one `m`, one `t` and one `e` cell, at row 14, columns 12, 13 and 14 |
| GameMap.PelletCells | progtest/seme/src/CGameMap.h:27-47 | the table has exactly four pellet cells, at rows 3 and 23, columns 1 and 26 |
| GameMap.Row03Cells | progtest/seme/src/CGameMap.h:27 | row 3 holds pellets at exactly columns 1 and 26 |
| GameMap.Row03Lacks | progtest/seme/src/CGameMap.h:27 | row 3 holds no player or ghost start |
| GameMap.Row14Cells | progtest/seme/src/CGameMap.h:38 | row 14 holds `m`, `t` and `e` at exactly columns 12, 13 and 14 |
| GameMap.Row14Lacks | progtest/seme/src/CGameMap.h:38 | row 14 holds no pellet and no player start |
| GameMap.Row23Cells | progtest/seme/src/CGameMap.h:47 | row 23 holds pellets at exactly columns 1 and 26 and the start cell at exactly column 13 |
| GameMap.Row23Lacks | progtest/seme/src/CGameMap.h:47 | row 23 holds no ghost start |
| GameMap.PlainRows0To3 | progtest/seme/src/CGameMap.h:24-26 | rows 0 to 2 hold only walls, coins and empty cells |
| GameMap.PlainRows4To14 | progtest/seme/src/CGameMap.h:28-37 | rows 4 to 13 hold only walls, coins and empty cells |
| GameMap.PlainRows15To23 | progtest/seme/src/CGameMap.h:39-46 | rows 15 to 22 hold only walls, coins and empty cells |
| GameMap.PlainRows24To31 | progtest/seme/src/CGameMap.h:48-54 | rows 24 to 30 hold only walls, coins and empty cells |
| GameMap.SpecialCount | progtest/seme/src/CGameMap.h:23-55 | any cell kind other than wall, coin and empty occurs only in rows 3, 14 and 23 |
| GameMap.CountIsMultiplicity | progtest/seme/src/CGameMap.h:23-55 | counting a row's cells of a kind gives that kind's multiplicity in the row |
| GameMap.CountAt | progtest/seme/src/CGameMap.h:23-55 | a row holding a kind at exactly the columns of a set counts as many cells of that kind as the set has |
| GameMap.CountAbsent | progtest/seme/src/CGameMap.h:23-55 | a row without a kind counts none of it |
| GameMap.CountPlainRows | progtest/seme/src/CGameMap.h:23-55 | rows that hold only walls, coins and empty cells add nothing to the count of any other kind |
| GameState.Reverse | progtest/seme/src/CGhost.cpp:67-77 | the reverse pairs up with down and left with right: its unit step is the negation of the direction's, and it is none only for none |
| GameState.ReverseIsInvolution | progtest/seme/src/CGhost.cpp:67-77 | reversing twice gives the direction back |
| GameState.Advance | progtest/seme/src/CGameState.cpp:47-61 | a move changes only the coordinate on its axis, by the distance, up and left decreasing it; none stays put |
| GameState.ProbedCell | progtest/seme/src/CGameState.cpp:17-40 | the cell the legality check reads is in the player's row for left and right and in the player's column for up and down; nothing is read for none |
| GameState.IsAMoveLegal | progtest/seme/src/CGameState.cpp:17-40 | a move is illegal exactly when its guarded neighbour cell is read and is a wall; none is always legal |
| GameState.RightOrDownStepStaysOpen | progtest/seme/src/CGameState.cpp:24-37 | a legal right or down step shorter than a tile never ends in a wall |
| GameState.LeftOrUpStepStaysOpen | progtest/seme/src/CGameState.cpp:19-32 | a legal left or up step ends off walls whenever it is no longer than the 0.005 threshold |
| GameState.LeftStepCanEnterWall | progtest/seme/src/CGameState.cpp:19-22 | a 1/60 s left step from x = 6.03 on row 2 is legal and ends inside a wall |
| GameState.TunnelMouthReadsOutsideRow | progtest/seme/src/CGameState.cpp:25-26 | from the last column of the tunnel row, the right check reads column 28, outside the row |
| GameState.GameState.constructor | progtest/seme/src/CGameState.h:18-47 | the header's initial values: level 1, score 0, 5 s power-up time, start screen, no moves, the shipped map and 240 coins |
| GameState.GameState.IsNextMoveLegal | progtest/seme/src/CGameState.cpp:7-10 | the buffered move's legality is `isAMoveLegal` at the player's position |
| GameState.GameState.IsThisMoveLegal | progtest/seme/src/CGameState.cpp:12-15 | the current move's legality is `isAMoveLegal` at the player's position |
| GameState.GameState.UpdateMoves | progtest/seme/src/CGameState.cpp:42-45 | the buffered move becomes the current one, and nothing else changes |
| GameState.GameState.UpdatePos | progtest/seme/src/CGameState.cpp:47-61 | only the player's position changes, by `PLAYER_SPEED * deltaTime` along the current move, with no wrap |
| Ghosts.Rank | progtest/seme/src/CGhost.cpp:93-101 | each personality's norm is non-negative and zero exactly for the zero vector |
| Ghosts.GuardPos | progtest/seme/src/CMax.cpp:13-16 | each guard post is a corner of the board |
| Ghosts.GuardPostsDistinct | progtest/seme/src/CMax.cpp:13-16 | the Manhattan, Max and Euclid ghosts guard the bottom-left, bottom-right and top-left corners, three different posts |
| Ghosts.Neighbour | progtest/seme/src/CGhost.cpp:65-77 | a candidate's position is the truncated tile plus one step on the move's axis |
| Ghosts.Extend | progtest/seme/src/CGhost.cpp:67-77 | one offer step keeps the moves found so far and appends at most one |
| Ghosts.Candidates | progtest/seme/src/CGhost.cpp:63-78 | at most one candidate per direction tried |
| Ghosts.CandidatesInMoveOrder | progtest/seme/src/CGhost.cpp:63-78 | the candidates come from offering up, down, left and right in turn |
| Ghosts.CandidatesAreLegalForwardMoves | progtest/seme/src/CGhost.cpp:63-78 | every candidate is legal from the ghost's position, never reverses its direction, and leads to the neighbouring tile |
| Ghosts.LegalForwardMovesAreCandidates | progtest/seme/src/CGhost.cpp:63-78 | every legal direction that does not reverse the ghost's direction is a candidate |
| Ghosts.CandidatesKeepOrder | progtest/seme/src/CGhost.cpp:63-78 | candidates keep the order of the directions tried |
| Ghosts.CandidateOrder | progtest/seme/src/CGhost.cpp:63-78 | there are at most four candidates, in the order up, down, left, right |
| Ghosts.Beats | progtest/seme/src/CGhost.cpp:93-101 | a candidate replaces the current choice only in chase or powerup, and only when their distances to the player differ, so a tie keeps the earlier candidate |
| Ghosts.Best | progtest/seme/src/CGhost.cpp:80-107 | the index held after scanning the first candidates is one of them |
| Ghosts.BestIsEarliestNearestInChase | progtest/seme/src/CGhost.cpp:90-98 | in chase the choice is nearest to the player, and every earlier candidate is strictly farther |
| Ghosts.BestIsEarliestFarthestInPowerUp | progtest/seme/src/CGhost.cpp:99-105 | in powerup the choice is farthest from the player, and every earlier candidate is strictly nearer |
| Ghosts.BestIsFirstInOtherModes | progtest/seme/src/CGhost.cpp:82-106 | in guard and lightsout mode the first candidate is kept |
| Ghosts.ChaseChoiceIsUnique | progtest/seme/src/CGhost.cpp:90-98 | nearest-and-earliest determines the chase choice |
| Ghosts.Wrap | progtest/seme/src/CGhost.cpp:16-23 | the edge wrap leaves positions inside [-1, 28] × [-1, 31] alone; any position outside is moved, by one board length on one coordinate, and always toward the box: a coordinate grows only when it was below -1 and shrinks only when it was past the board |
| Ghosts.WrapReturnsSingleAxisOvershoot | progtest/seme/src/CGhost.cpp:16-23 | a position off the box on one axis, by less than a board length, is brought back into the box |
| Ghosts.WrapFixesOneAxisPerCall | progtest/seme/src/CGhost.cpp:16-23 | a position off both axes is corrected on x only and stays outside the box |
| Ghosts.AfterCollision | progtest/seme/src/CGhost.cpp:56-57 | the ghost is either where it was or at its spawn, and it leaves its place only when it overlaps the player in powerup |
| Ghosts.GhostSpeed | progtest/seme/src/CGhost.cpp:50-52 | the ghost speed is 3 tiles per second in powerup and `PLAYER_SPEED` otherwise |
| Ghosts.GhostTravel | progtest/seme/src/CGhost.cpp:50-60 | a ghost covers no more than the player in the same frame, and three quarters of it in powerup |
| Ghosts.SpeedIsGhostSpeed | progtest/seme/src/CGhost.cpp:50-52 | moving at `GhostSpeed` of the current mode, the speed `update` computes, covers `GhostTravel` |
| Ghosts.Ghost.constructor | progtest/seme/src/CGhost.h:10 | a new ghost stands at its spawn position with no direction |
| Ghosts.Ghost.UpdatePos | progtest/seme/src/CGhost.cpp:5-24 | the ghost moves `speed * deltaTime` along its direction, then wraps once |
| Ghosts.Ghost.SetTargetPos | progtest/seme/src/CGhost.cpp:26-32 | the target is the guard post in guard mode and the player otherwise |
| Ghosts.Ghost.HandlePlayerCollision | progtest/seme/src/CGhost.cpp:34-46 | in powerup, exactly 400 points are added, the ghost respawns and the screen is unchanged; otherwise the screen becomes game over and the score is unchanged |
| Ghosts.Ghost.FindPossibleMoves | progtest/seme/src/CGhost.cpp:63-78 | the moves found equal the candidates in the order up, down, left, right |
| Ghosts.Ghost.PickBestMove | progtest/seme/src/CGhost.cpp:80-107 | with no candidates the ghost stops and keeps `nextPos`; otherwise it takes the candidate that `Best` selects |
| Ghosts.Ghost.GetNextPos | progtest/seme/src/CGhost.cpp:108-114 | the chosen move is the best candidate from the ghost's position and direction |
| Ghosts.Ghost.Update | progtest/seme/src/CGhost.cpp:48-61 | fixes the target; resolves a collision only under rounded equality; picks the best candidate from the position after the collision; moves `GhostTravel` along it and wraps |
| Collectibles.Effect | progtest/seme/src/CCoin.cpp:3-10 | an uncollected coin costs one coin and gives one point, keeping `score + coinCount`; an uncollected pellet starts powerup with a full timer and leaves the score and coins alone; a collected item changes nothing |
| Collectibles.Touch | progtest/seme/src/CCollectible.cpp:3-10 | on overlap the effect runs with the flag as it was, then the flag is set; without overlap nothing changes |
| Collectibles.LegacyCoinEffect | progtest/seme/src/CCollectible.cpp:12-16 | the older coin effect lowers only `coinCount`, and only for an uncollected coin |
| Collectibles.LegacyCoinEffectDropsThePoint | progtest/seme/src/CCollectible.cpp:12-16 | the older coin effect is the current one without the point, so it does not keep `score + coinCount` |
| Collectibles.TouchNeverResets | progtest/seme/src/CCollectible.cpp:8 | a collected item stays collected and changes nothing |
| Collectibles.TouchIsIdempotent | progtest/seme/src/CPowerUp.cpp:5-9 | a second update at the same position changes nothing more |
| Collectibles.Run | progtest/seme/src/CCollectible.cpp:3-10 | a run of updates never changes an item's kind or position |
| Collectibles.CoinFiresAtMostOnce | progtest/seme/src/CCoin.cpp:5-9 | over any run, a coin lowers `coinCount` by one exactly when it was uncollected and overlapped, keeps `score + coinCount`, and leaves the mode and timer alone |
| Collectibles.PelletKeepsScoreAndCoins | progtest/seme/src/CPowerUp.cpp:3-10 | over any run, a pellet ends collected exactly when it was collected or overlapped; when it was uncollected and overlapped, the mode becomes powerup and the timer is reset to the power-up time, and otherwise the counters are unchanged; the score and coins never change |
| Collectibles.RunOfCollectedIsIdle | progtest/seme/src/CCollectible.cpp:8 | a collected item is inert for any run |
| Collectibles.VisitsSplit | progtest/seme/src/CCollectible.cpp:5 | a run overlaps a position when its first frame does or the rest does |
| Collectibles.Collectible.constructor | progtest/seme/src/CCollectible.h:14-31 | a new item is not collected |
| Collectibles.Collectible.DoEffect | progtest/seme/src/CCoin.cpp:3-10 | the shared counters change as `Effect` says, and no other field of the game state changes |
| Collectibles.Collectible.LegacyDoEffect | progtest/seme/src/CCollectible.cpp:12-16 | only the coin counter changes, as `LegacyCoinEffect` says |
| Collectibles.Collectible.Update | progtest/seme/src/CCollectible.cpp:3-10 | the item and the counters change as `Touch` says |
| Game.CellSpawns | progtest/seme/src/main.cpp:51-74 | exactly one object per coin, pellet or ghost cell, and none for other cells |
| Game.Setup | progtest/seme/src/main.cpp:44-78 | returns the objects in row-major order and sets the player start from the scan; the map is only read |
| Game.GridSpawnCount | progtest/seme/src/main.cpp:48-73 | the scan builds one object per cell of each spawning kind |
| Game.RowSpawnCount | progtest/seme/src/main.cpp:49-73 | scanning a row builds one object per cell of each spawning kind |
| Game.SpawnCountAppend | progtest/seme/src/main.cpp:54-72 | counting objects distributes over concatenation |
| Game.GridSpawnsAreCells | progtest/seme/src/main.cpp:53-73 | every object stands for a spawning cell of the map at `CPos(row, column)`, row as x |
| Game.CellsHaveGridSpawns | progtest/seme/src/main.cpp:53-73 | every spawning cell of the map has its object at `CPos(row, column)` |
| Game.RowSpawnsAreCells | progtest/seme/src/main.cpp:53-73 | every object from a row stands for a spawning cell of that row at `CPos(row, column)` |
| Game.CellsHaveRowSpawns | progtest/seme/src/main.cpp:53-73 | every spawning cell of a row has its object |
| Game.StartInRowsWithOneStart | progtest/seme/src/main.cpp:62-63 | with a single start cell in the map, the player starts at `CPos(column, row)` of that cell, wherever it stood before |
| Game.StartInRowsWithoutStart | progtest/seme/src/main.cpp:62-63 | rows without a start cell leave the player where it was |
| Game.StartInRowWithOneStart | progtest/seme/src/main.cpp:62-63 | in a row with a single start cell, the player ends up at that cell's `CPos(column, row)` |
| Game.StartInRowWithoutStart | progtest/seme/src/main.cpp:62-63 | a row prefix without a start cell leaves the player where it was |
| Game.CountPresent | progtest/seme/src/CGameMap.h:23-55 | a row holding a cell of a kind counts at least one of it |
| Game.CountRowsPresent | progtest/seme/src/CGameMap.h:23-55 | a table holding a start cell in its first rows counts at least one |
| Game.TemplateSetup | progtest/seme/src/main.cpp:44-78 | on the shipped map, setup builds 240 coins, 4 pellets and one ghost of each kind, and puts the player at (13, 23) |
| Game.Moved | progtest/seme/src/main.cpp:124-125 | the player moves `PLAYER_SPEED * deltaTime` along the current move when it is legal, and stays put otherwise |
| Game.RightOrDownFrameStaysOpen | progtest/seme/src/main.cpp:124-125 | a frame under a quarter second never moves the player right or down into a wall |
| Game.Tick | progtest/seme/src/main.cpp:124-128 | moves as `Moved` says, then takes the buffered move if it is legal at the new position; no other field changes |

## Left out

- Rendering, windowing and input (SDL, every `draw` method, `processInput`, `main`): I/O to a foreign library. The keyboard's effect on `nextMove` is the field itself.
- Frame timing (`SDL_GetTicks`, main.cpp:121-122): `deltaTime` is a parameter.
- Double-precision arithmetic: coordinates are exact reals.
- `hypot`: the Euclid ghost ranks by squared length, which orders candidates the same way (`Euclid.RootsOrderAsSquares`).
- `saveScore` and `highscores`: `saveScore` has no body in the source, so a collision outside powerup sets only the game-over screen.
- Portals: the `T` cases and `CPortal` in `setup` (main.cpp:59-61,76-77). `T` is not a cell kind of the map, and the portal class is an empty stub.
- Mode timers, guard scheduling, levels and the lightsout mode: no code in the source counts them down or switches to them. `LightsOut` exists only as a value of `GameMode`.
- The game objects' update in main.cpp's `update`: line 130 is a TODO, so `Game.Tick` moves only the player.
- Class hierarchy: the `CGameObject` base and the virtual calls. A ghost's subclass is `Ghosts.Personality`, a collectible's subclass is `Collectibles.Kind`, and `Game.Setup` returns records of cell kind and position instead of heap objects.
- `CMax::getGuardPos` has two copies. The model uses the one in CMax.cpp, (28, 31); the copy at CGhost.cpp:172-175 swaps the coordinates.
- `CGhost.h` and `CGhost.cpp` disagree. Fields and methods follow the `.cpp`: `startPos`, `direction`, `updatePos` and the two-argument `isAMoveLegal`.
- `CCollectible::update` is declared with a `deltaTime` parameter but defined without one, and the model follows the definition. The empty `CPowerUp::doEffect` draft in CCollectible.cpp:21-23 is not modelled separately: it changes nothing.
- `Game.Setup`: the source appends to the `gameObjects` vector its caller passes in (main.cpp:44, `push_back` throughout); the model returns a fresh sequence, which is the same result for the empty vector `main` passes.
- `GameState.GameState.constructor`: `gamemode` and `playerPos` have no initial values in the header, so they are parameters. `CPos`'s default constructor is documented as giving (0,0) (CPos.h:11-12), but it is `= default`, which leaves the coordinates unset; `setup` overwrites `playerPos` from the start cell in any case.
- `Ghosts.Ghost.constructor`: the source's constructor (CGhost.h:10) sets only `currentPos`. `startPos`, `nextPos`, `targetPos` and `direction` are left unset there. The model sets all three positions to the spawn position and the direction to none; the powerup respawn in `HandlePlayerCollision` relies on `startPos` being the spawn position.
- `GameState.IsAMoveLegal`: the source reads outside the table when the guarded neighbour lies off the board. For example, the right check from column 27 of the tunnel row reads column 28. The model makes every such read a precondition (`GameState.ProbeInMap`, and `Ghosts.AllProbesInMap` for the ghosts) instead of inventing a value for it.
- `GameState.LeftOrUpStepStaysOpen`: left and up moves are checked only within 0.005 of a tile's edge. A longer step can skip that band and end in a wall (`GameState.LeftStepCanEnterWall`), so the lemma is stated only for steps up to the threshold.
- `Game.RightOrDownFrameStaysOpen`: the lemma covers right and down moves in frames under a quarter second; left and up moves can enter walls, as above.
