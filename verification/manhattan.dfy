/** The Manhattan ghost's norm and guard post (CManhattan). */
module Manhattan {
  import opened Positions
  import GameMap

  /** `CManhattan::getNorm`: the L1 length of a vector. */
  function Norm(v: Pos): (n: real)
    ensures n >= 0.0
    ensures n == 0.0 <==> v == Pos(0.0, 0.0)
    ensures n >= Abs(v.x) && n >= Abs(v.y)
  {
    Abs(v.x) + Abs(v.y)
  }

  /** `CManhattan::getGuardPos`: the bottom-left corner, whatever the game state. */
  const GuardPos: Pos := Pos(0.0, GameMap.BoardHeight as real)

  /** The norm ignores the signs of the coordinates and their order. */
  lemma NormSymmetries(v: Pos)
    ensures Norm(Pos(-v.x, v.y)) == Norm(v)
    ensures Norm(Pos(v.x, -v.y)) == Norm(v)
    ensures Norm(Pos(v.y, v.x)) == Norm(v)
  {
  }

  /** The triangle inequality. */
  lemma NormTriangle(a: Pos, b: Pos)
    ensures Norm(Pos(a.x + b.x, a.y + b.y)) <= Norm(a) + Norm(b)
  {
  }

  lemma NormExample()
    ensures Norm(Pos(3.0, 4.0)) == 7.0
  {
  }
}
