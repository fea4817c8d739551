/** Board positions (CPos): two real coordinates in tile units, the truncation
    to a tile used by the movement code and the rounded comparison used for
    collisions. */
module Positions {

  /** A point on the board; x grows to the right, y grows downwards. */
  datatype Pos = Pos(x: real, y: real)

  function Abs(r: real): (a: real)
    ensures a >= 0.0 && (a == r || a == -r)
  {
    if r < 0.0 then -r else r
  }

  /** `static_cast<int>` of a coordinate: truncation toward zero. */
  function Trunc(r: real): (t: int)
    ensures 0.0 <= r ==> t as real <= r < t as real + 1.0
    ensures r < 0.0 ==> t as real - 1.0 < r <= t as real
  {
    if r >= 0.0 then r.Floor else -((-r).Floor)
  }

  /** `std::round`: the nearest integer, halfway cases away from zero. */
  function Round(r: real): (n: int)
    ensures -0.5 <= r - n as real <= 0.5
    ensures r - n as real == 0.5 ==> r < 0.0
    ensures r - n as real == -0.5 ==> r > 0.0
  {
    if r >= 0.0 then (r + 0.5).Floor else -((-r + 0.5).Floor)
  }

  /** `CPos::getIntPos`: the tile a position lies in, as (column, row). */
  function IntPos(p: Pos): (tile: (int, int))
    ensures 0.0 <= p.x ==> tile.0 == p.x.Floor
    ensures 0.0 <= p.y ==> tile.1 == p.y.Floor
  {
    (Trunc(p.x), Trunc(p.y))
  }

  /** `CPos::operator==`: both coordinates round to the same integers. */
  predicate PosEq(p: Pos, q: Pos)
    ensures PosEq(p, q) ==> Abs(p.x - q.x) < 1.0 && Abs(p.y - q.y) < 1.0
  {
    Round(q.x) == Round(p.x) && Round(q.y) == Round(p.y)
  }

  /** `CPos::operator-`, declared but not defined in the source: component-wise difference. */
  function Sub(p: Pos, q: Pos): (d: Pos)
    ensures d.x + q.x == p.x && d.y + q.y == p.y
  {
    Pos(p.x - q.x, p.y - q.y)
  }

  /** The rounded comparison is an equivalence relation. */
  lemma PosEqIsEquivalence()
    ensures forall p :: PosEq(p, p)
    ensures forall p, q :: PosEq(p, q) ==> PosEq(q, p)
    ensures forall p, q, r :: PosEq(p, q) && PosEq(q, r) ==> PosEq(p, r)
  {
  }

  /** Two positions that compare equal are less than one tile apart on each
      axis, so their truncated tiles are equal or neighbours. */
  lemma PosEqTilesAdjacent(p: Pos, q: Pos)
    requires PosEq(p, q)
    ensures Abs(p.x - q.x) <= 1.0 && Abs(p.y - q.y) <= 1.0
    ensures -1 <= Trunc(p.x) - Trunc(q.x) <= 1
    ensures -1 <= Trunc(p.y) - Trunc(q.y) <= 1
  {
    var rx, ry := Round(p.x), Round(p.y);
    assert -0.5 <= p.x - rx as real <= 0.5 && -0.5 <= q.x - rx as real <= 0.5;
    assert -0.5 <= p.y - ry as real <= 0.5 && -0.5 <= q.y - ry as real <= 0.5;
  }

  /** Positions whose rounded x differ compare unequal however close they are. */
  lemma NearbyPositionsCanDiffer()
    ensures !PosEq(Pos(5.49, 0.0), Pos(5.51, 0.0))
    ensures Abs(5.49 - 5.51) < 0.05
  {
    assert Round(5.49) == 5;
    assert Round(5.51) == 6;
  }

  /** The rounded comparison does not fix the truncated tile: 5.6 and 6.2 compare
      equal but lie in tiles 5 and 6. */
  lemma PosEqDoesNotFixTile()
    ensures PosEq(Pos(5.6, 1.0), Pos(6.2, 1.0))
    ensures IntPos(Pos(5.6, 1.0)) != IntPos(Pos(6.2, 1.0))
  {
    assert Round(5.6) == 6 && Round(6.2) == 6;
    assert Trunc(5.6) == 5 && Trunc(6.2) == 6;
  }

  /** Truncation and flooring part ways below zero. */
  lemma TruncIsNotFloorBelowZero()
    ensures Trunc(-0.5) == 0 && (-0.5).Floor == -1
  {
  }
}
