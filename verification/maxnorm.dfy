/** The Max ghost's norm and guard post (CMax). */
module MaxNorm {
  import opened Positions
  import GameMap

  /** `CMax::getNorm`: the larger of the absolute coordinates (L-infinity). */
  function Norm(v: Pos): (n: real)
    ensures n >= Abs(v.x) && n >= Abs(v.y)
    ensures n == Abs(v.x) || n == Abs(v.y)
    ensures n == 0.0 <==> v == Pos(0.0, 0.0)
  {
    if Abs(v.x) < Abs(v.y) then Abs(v.y) else Abs(v.x)
  }

  /** `CMax::getGuardPos` in CMax.cpp: the bottom-right corner, whatever the
      game state. */
  const GuardPos: Pos := Pos(GameMap.BoardWidth as real, GameMap.BoardHeight as real)

  /** The norm ignores the signs of the coordinates and their order. */
  lemma NormSymmetries(v: Pos)
    ensures Norm(Pos(-v.x, v.y)) == Norm(v)
    ensures Norm(Pos(v.x, -v.y)) == Norm(v)
    ensures Norm(Pos(v.y, v.x)) == Norm(v)
  {
  }

  lemma NormExample()
    ensures Norm(Pos(3.0, 4.0)) == 4.0
  {
  }
}
