/** The Euclid ghost's norm and guard post (CEuclid). The source computes
    `hypot(x, y)`; the model ranks vectors by their squared length, which orders
    them exactly as the root does. */
module Euclid {
  import opened Positions

  /** The square of `CEuclid::getNorm`. */
  function SquaredNorm(v: Pos): (n: real)
    ensures n >= 0.0
    ensures n == 0.0 <==> v == Pos(0.0, 0.0)
    ensures n >= v.x * v.x && n >= v.y * v.y
  {
    SquareSign(v.x);
    SquareSign(v.y);
    v.x * v.x + v.y * v.y
  }

  /** A square is positive unless its root is zero. */
  lemma SquareSign(r: real)
    ensures r * r >= 0.0
    ensures r * r == 0.0 <==> r == 0.0
  {
    if r > 0.0 {
      SquareBelow(0.0, r);
    } else if r < 0.0 {
      SquareBelow(0.0, -r);
      assert (-r) * (-r) == r * r;
    }
  }

  /** Scaling by a positive factor keeps a strict order. */
  lemma ScaleStrict(a: real, b: real, c: real)
    requires a < b && 0.0 < c
    ensures a * c < b * c
  {
    assert b * c - a * c == (b - a) * c;
  }

  /** `CEuclid::getGuardPos`: the top-left corner, whatever the game state. */
  const GuardPos: Pos := Pos(0.0, 0.0)

  /** Non-negative roots are ordered as their squares, so comparing squared
      lengths makes the same choices as comparing `hypot` values. */
  lemma RootsOrderAsSquares(r: real, s: real)
    requires 0.0 <= r && 0.0 <= s
    ensures r < s <==> r * r < s * s
    ensures r == s <==> r * r == s * s
  {
    if r < s {
      SquareBelow(r, s);
    } else if s < r {
      SquareBelow(s, r);
    }
  }

  /** Squaring keeps a strict order between non-negative reals. */
  lemma SquareBelow(r: real, s: real)
    requires 0.0 <= r < s
    ensures r * r < s * s
  {
    ScaleStrict(0.0, s - r, s + r);
    assert (s - r) * (s + r) == s * s - r * r;
  }

  /** Any length `r` with `r * r == SquaredNorm(v)` is the norm; the length of (3, 4) is 5. */
  lemma NormExample()
    ensures SquaredNorm(Pos(3.0, 4.0)) == 5.0 * 5.0
  {
  }
}
