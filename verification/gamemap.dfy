/** The maze (CGameMap): a fixed 31 x 28 table of cells and the counter of coins
    still on the board. */
module GameMap {

  const BoardHeight: int := 31
  const BoardWidth: int := 28

  /** `CGameMap::coinCount` at the start of a game. */
  const InitialCoinCount: int := 240

  /** `CGameMap::CMapObjects`, with the source's one-letter names. */
  datatype Cell =
    | W  // wall
    | C  // coin
    | P  // power pellet
    | S  // player start
    | m  // start of the Max ghost
    | t  // start of the Manhattan ghost
    | e  // start of the Euclid ghost
    | O  // empty

  /** A table of cells indexed `[row][column]`. */
  type Grid = seq<seq<Cell>>

  /** The table has the board's dimensions. */
  predicate IsBoard(g: Grid)
  {
    |g| == BoardHeight && forall i :: 0 <= i < |g| ==> |g[i]| == BoardWidth
  }

  /** Whether (row, col) names a cell of the board. */
  predicate OnBoard(row: int, col: int)
  {
    0 <= row < BoardHeight && 0 <= col < BoardWidth
  }

  // The rows of `CGameMap::map`, top to bottom.
  const Row00: seq<Cell> := [W, W, W, W, W, W, W, W, W, W, W, W, W, W, W, W, W, W, W, W, W, W, W, W, W, W, W, W]
  const Row01: seq<Cell> := [W, C, C, C, C, C, C, C, C, C, C, C, C, W, W, C, C, C, C, C, C, C, C, C, C, C, C, W]
  const Row02: seq<Cell> := [W, C, W, W, W, W, C, W, W, W, W, W, C, W, W, C, W, W, W, W, W, C, W, W, W, W, C, W]
  const Row03: seq<Cell> := [W, P, W, W, W, W, C, W, W, W, W, W, C, W, W, C, W, W, W, W, W, C, W, W, W, W, P, W]
  const Row04: seq<Cell> := [W, C, W, W, W, W, C, W, W, W, W, W, C, W, W, C, W, W, W, W, W, C, W, W, W, W, C, W]
  const Row05: seq<Cell> := [W, C, C, C, C, C, C, C, C, C, C, C, C, C, C, C, C, C, C, C, C, C, C, C, C, C, C, W]
  const Row06: seq<Cell> := [W, C, W, W, W, W, C, W, W, C, W, W, W, W, W, W, W, W, C, W, W, C, W, W, W, W, C, W]
  const Row07: seq<Cell> := [W, C, W, W, W, W, C, W, W, C, W, W, W, W, W, W, W, W, C, W, W, C, W, W, W, W, C, W]
  const Row08: seq<Cell> := [W, C, C, C, C, C, C, W, W, C, C, C, C, W, W, C, C, C, C, W, W, C, C, C, C, C, C, W]
  const Row09: seq<Cell> := [W, W, W, W, W, W, C, W, W, W, W, W, O, W, W, O, W, W, W, W, W, C, W, W, W, W, W, W]
  const Row10: seq<Cell> := [W, W, W, W, W, W, C, W, W, W, W, W, O, W, W, O, W, W, W, W, W, C, W, W, W, W, W, W]
  const Row11: seq<Cell> := [W, W, W, W, W, W, C, W, W, O, O, O, O, O, O, O, O, O, O, W, W, C, W, W, W, W, W, W]
  const Row12: seq<Cell> := [W, W, W, W, W, W, C, W, W, O, W, W, W, O, O, W, W, W, O, W, W, C, W, W, W, W, W, W]
  const Row13: seq<Cell> := [W, W, W, W, W, W, C, W, W, O, W, O, O, O, O, O, O, W, O, W, W, C, W, W, W, W, W, W]
  const Row14: seq<Cell> := [O, O, O, O, O, O, C, O, O, O, W, O, m, t, e, O, O, W, O, O, O, C, O, O, O, O, O, O]
  const Row15: seq<Cell> := [W, W, W, W, W, W, C, W, W, O, W, O, O, O, O, O, O, W, O, W, W, C, W, W, W, W, W, W]
  const Row16: seq<Cell> := [W, W, W, W, W, W, C, W, W, O, W, W, W, W, W, W, W, W, O, W, W, C, W, W, W, W, W, W]
  const Row17: seq<Cell> := [W, W, W, W, W, W, C, W, W, O, O, O, O, O, O, O, O, O, O, W, W, C, W, W, W, W, W, W]
  const Row18: seq<Cell> := [W, W, W, W, W, W, C, W, W, O, W, W, W, W, W, W, W, W, O, W, W, C, W, W, W, W, W, W]
  const Row19: seq<Cell> := [W, W, W, W, W, W, C, W, W, O, W, W, W, W, W, W, W, W, O, W, W, C, W, W, W, W, W, W]
  const Row20: seq<Cell> := [W, C, C, C, C, C, C, C, C, C, C, C, C, W, W, C, C, C, C, C, C, C, C, C, C, C, C, W]
  const Row21: seq<Cell> := [W, C, W, W, W, W, C, W, W, W, W, W, C, W, W, C, W, W, W, W, W, C, W, W, W, W, C, W]
  const Row22: seq<Cell> := [W, C, W, W, W, W, C, W, W, W, W, W, C, W, W, C, W, W, W, W, W, C, W, W, W, W, C, W]
  const Row23: seq<Cell> := [W, P, C, C, W, W, C, C, C, C, C, C, C, S, O, C, C, C, C, C, C, C, W, W, C, C, P, W]
  const Row24: seq<Cell> := [W, W, W, C, W, W, C, W, W, C, W, W, W, W, W, W, W, W, C, W, W, C, W, W, C, W, W, W]
  const Row25: seq<Cell> := [W, W, W, C, W, W, C, W, W, C, W, W, W, W, W, W, W, W, C, W, W, C, W, W, C, W, W, W]
  const Row26: seq<Cell> := [W, C, C, C, C, C, C, W, W, C, C, C, C, W, W, C, C, C, C, W, W, C, C, C, C, C, C, W]
  const Row27: seq<Cell> := [W, C, W, W, W, W, W, W, W, W, W, W, C, W, W, C, W, W, W, W, W, W, W, W, W, W, C, W]
  const Row28: seq<Cell> := [W, C, W, W, W, W, W, W, W, W, W, W, C, W, W, C, W, W, W, W, W, W, W, W, W, W, C, W]
  const Row29: seq<Cell> := [W, C, C, C, C, C, C, C, C, C, C, C, C, C, C, C, C, C, C, C, C, C, C, C, C, C, C, W]
  const Row30: seq<Cell> := [W, W, W, W, W, W, W, W, W, W, W, W, W, W, W, W, W, W, W, W, W, W, W, W, W, W, W, W]

  /** Row `i` of `CGameMap::map`. */
  function TemplateRow(i: int): (row: seq<Cell>)
    requires 0 <= i < BoardHeight
    ensures |row| == BoardWidth
  {
    match i
      case 0 => Row00
      case 1 => Row01
      case 2 => Row02
      case 3 => Row03
      case 4 => Row04
      case 5 => Row05
      case 6 => Row06
      case 7 => Row07
      case 8 => Row08
      case 9 => Row09
      case 10 => Row10
      case 11 => Row11
      case 12 => Row12
      case 13 => Row13
      case 14 => Row14
      case 15 => Row15
      case 16 => Row16
      case 17 => Row17
      case 18 => Row18
      case 19 => Row19
      case 20 => Row20
      case 21 => Row21
      case 22 => Row22
      case 23 => Row23
      case 24 => Row24
      case 25 => Row25
      case 26 => Row26
      case 27 => Row27
      case 28 => Row28
      case 29 => Row29
      case _ => Row30
  }

  /** `CGameMap::map`. */
  const Template: Grid := seq(BoardHeight, TemplateRow)

  /** The number of cells of kind `c` in a row. */
  function Count(row: seq<Cell>, c: Cell): nat
  {
    if row == [] then 0 else Count(row[..|row| - 1], c) + (if row[|row| - 1] == c then 1 else 0)
  }

  /** The number of cells of kind `c` in the first `k` rows of a table. */
  function CountRows(g: Grid, c: Cell, k: nat): nat
    requires k <= |g|
  {
    if k == 0 then 0 else CountRows(g, c, k - 1) + Count(g[k - 1], c)
  }

  /** `Count` agrees with the multiplicity in the row's multiset. */
  lemma {:induction false} CountIsMultiplicity(row: seq<Cell>, c: Cell)
    ensures Count(row, c) == multiset(row)[c]
  {
    if row != [] {
      var init := row[..|row| - 1];
      CountIsMultiplicity(init, c);
      assert row == init + [row[|row| - 1]];
    }
  }

  /** Walls, coins and empty cells: the kinds that start no entity. */
  predicate Plain(c: Cell)
  {
    c == W || c == C || c == O
  }

  /** Rows `lo` to `hi - 1` hold only plain cells. */
  predicate PlainRows(g: Grid, lo: nat, hi: nat)
    requires lo <= hi <= |g|
  {
    forall k, j | lo <= k < hi && 0 <= j < |g[k]| :: Plain(g[k][j])
  }

  /** A row without cells of kind `c` counts none of them. */
  lemma {:induction false} CountAbsent(row: seq<Cell>, c: Cell)
    requires forall j | 0 <= j < |row| :: row[j] != c
    ensures Count(row, c) == 0
  {
    if row != [] {
      CountAbsent(row[..|row| - 1], c);
    }
  }

  /** Cells of kind `c` occur in `row` exactly at the columns `cols`. */
  predicate At(row: seq<Cell>, c: Cell, cols: set<int>)
  {
    (forall j | 0 <= j < |row| :: row[j] == c <==> j in cols) &&
    (forall j | j in cols :: 0 <= j < |row|)
  }

  /** A row holding kind `c` exactly at `cols` counts `|cols|` of them. */
  lemma {:induction false} CountAt(row: seq<Cell>, c: Cell, cols: set<int>)
    requires At(row, c, cols)
    ensures Count(row, c) == |cols|
  {
    if row == [] {
      assert forall j | j in cols :: 0 <= j < |row|;
      assert cols == {};
    } else {
      var last := |row| - 1;
      var rest := cols - {last};
      CountAt(row[..last], c, rest);
      if row[last] == c {
        assert cols == rest + {last};
      } else {
        assert cols == rest;
      }
    }
  }

  /** Rows of plain cells add nothing to the count of a non-plain kind. */
  lemma {:induction false} CountPlainRows(g: Grid, c: Cell, lo: nat, hi: nat)
    requires lo <= hi <= |g| && PlainRows(g, lo, hi) && !Plain(c)
    ensures CountRows(g, c, hi) == CountRows(g, c, lo)
  {
    if lo < hi {
      CountPlainRows(g, c, lo, hi - 1);
      CountAbsent(g[hi - 1], c);
    }
  }

  lemma TemplateIsBoard()
    ensures IsBoard(Template)
  {
  }

  /** Rows 0 and 30 are walls from end to end. */
  lemma BorderRowsAreWalls()
    ensures forall j :: 0 <= j < BoardWidth ==> Template[0][j] == W && Template[BoardHeight - 1][j] == W
  {
    assert Template[0] == Row00 && Template[BoardHeight - 1] == Row30;
  }

  /** Columns 0 and 27 are walls except on row 14, whose two end cells are
      empty: the only tunnel. */
  lemma TunnelIsTheOnlyOpening()
    ensures forall i :: 0 <= i < BoardHeight ==>
      (Template[i][0] == W && Template[i][BoardWidth - 1] == W <==> i != 14)
    ensures Template[14][0] == O && Template[14][BoardWidth - 1] == O
  {
  }

  // Coins per row, read off the multiset of each row.
  lemma Row00Coins() ensures Count(Row00, C) == 0 { assert At(Row00, C, {}); CountAt(Row00, C, {}); }
  lemma Row01Coins() ensures Count(Row01, C) == 24 { CountIsMultiplicity(Row01, C); }
  lemma Row02Coins() ensures Count(Row02, C) == 6 { CountIsMultiplicity(Row02, C); }
  lemma Row03Coins() ensures Count(Row03, C) == 4 { assert At(Row03, C, {6, 12, 15, 21}); CountAt(Row03, C, {6, 12, 15, 21}); }
  lemma Row04Coins() ensures Count(Row04, C) == 6 { CountIsMultiplicity(Row04, C); }
  lemma Row05Coins() ensures Count(Row05, C) == 26 { CountIsMultiplicity(Row05, C); }
  lemma Row06Coins() ensures Count(Row06, C) == 6 { CountIsMultiplicity(Row06, C); }
  lemma Row07Coins() ensures Count(Row07, C) == 6 { CountIsMultiplicity(Row07, C); }
  lemma Row08Coins() ensures Count(Row08, C) == 20 { CountIsMultiplicity(Row08, C); }
  lemma Row09Coins() ensures Count(Row09, C) == 2 { assert At(Row09, C, {6, 21}); CountAt(Row09, C, {6, 21}); }
  lemma Row10Coins() ensures Count(Row10, C) == 2 { assert At(Row10, C, {6, 21}); CountAt(Row10, C, {6, 21}); }
  lemma Row11Coins() ensures Count(Row11, C) == 2 { assert At(Row11, C, {6, 21}); CountAt(Row11, C, {6, 21}); }
  lemma Row12Coins() ensures Count(Row12, C) == 2 { assert At(Row12, C, {6, 21}); CountAt(Row12, C, {6, 21}); }
  lemma Row13Coins() ensures Count(Row13, C) == 2 { assert At(Row13, C, {6, 21}); CountAt(Row13, C, {6, 21}); }
  lemma Row14Coins() ensures Count(Row14, C) == 2 { assert At(Row14, C, {6, 21}); CountAt(Row14, C, {6, 21}); }
  lemma Row15Coins() ensures Count(Row15, C) == 2 { assert At(Row15, C, {6, 21}); CountAt(Row15, C, {6, 21}); }
  lemma Row16Coins() ensures Count(Row16, C) == 2 { assert At(Row16, C, {6, 21}); CountAt(Row16, C, {6, 21}); }
  lemma Row17Coins() ensures Count(Row17, C) == 2 { assert At(Row17, C, {6, 21}); CountAt(Row17, C, {6, 21}); }
  lemma Row18Coins() ensures Count(Row18, C) == 2 { assert At(Row18, C, {6, 21}); CountAt(Row18, C, {6, 21}); }
  lemma Row19Coins() ensures Count(Row19, C) == 2 { assert At(Row19, C, {6, 21}); CountAt(Row19, C, {6, 21}); }
  lemma Row20Coins() ensures Count(Row20, C) == 24 { CountIsMultiplicity(Row20, C); }
  lemma Row21Coins() ensures Count(Row21, C) == 6 { CountIsMultiplicity(Row21, C); }
  lemma Row22Coins() ensures Count(Row22, C) == 6 { CountIsMultiplicity(Row22, C); }
  lemma Row23Coins() ensures Count(Row23, C) == 18 { CountIsMultiplicity(Row23, C); }
  lemma Row24Coins() ensures Count(Row24, C) == 6 { CountIsMultiplicity(Row24, C); }
  lemma Row25Coins() ensures Count(Row25, C) == 6 { CountIsMultiplicity(Row25, C); }
  lemma Row26Coins() ensures Count(Row26, C) == 20 { CountIsMultiplicity(Row26, C); }
  lemma Row27Coins() ensures Count(Row27, C) == 4 { CountIsMultiplicity(Row27, C); }
  lemma Row28Coins() ensures Count(Row28, C) == 4 { CountIsMultiplicity(Row28, C); }
  lemma Row29Coins() ensures Count(Row29, C) == 26 { CountIsMultiplicity(Row29, C); }
  lemma Row30Coins() ensures Count(Row30, C) == 0 { assert At(Row30, C, {}); CountAt(Row30, C, {}); }

  lemma CoinsInFirstRows4()
    ensures CountRows(Template, C, 4) == 34
  {
    Row00Coins(); assert CountRows(Template, C, 1) == 0;
    Row01Coins(); assert CountRows(Template, C, 2) == 24;
    Row02Coins(); assert CountRows(Template, C, 3) == 30;
    Row03Coins(); assert CountRows(Template, C, 4) == 34;
  }

  lemma CoinsInFirstRows8()
    ensures CountRows(Template, C, 8) == 78
  {
    CoinsInFirstRows4();
    Row04Coins(); assert CountRows(Template, C, 5) == 40;
    Row05Coins(); assert CountRows(Template, C, 6) == 66;
    Row06Coins(); assert CountRows(Template, C, 7) == 72;
    Row07Coins(); assert CountRows(Template, C, 8) == 78;
  }

  lemma CoinsInFirstRows12()
    ensures CountRows(Template, C, 12) == 104
  {
    CoinsInFirstRows8();
    Row08Coins(); assert CountRows(Template, C, 9) == 98;
    Row09Coins(); assert CountRows(Template, C, 10) == 100;
    Row10Coins(); assert CountRows(Template, C, 11) == 102;
    Row11Coins(); assert CountRows(Template, C, 12) == 104;
  }

  lemma CoinsInFirstRows16()
    ensures CountRows(Template, C, 16) == 112
  {
    CoinsInFirstRows12();
    Row12Coins(); assert CountRows(Template, C, 13) == 106;
    Row13Coins(); assert CountRows(Template, C, 14) == 108;
    Row14Coins(); assert CountRows(Template, C, 15) == 110;
    Row15Coins(); assert CountRows(Template, C, 16) == 112;
  }

  lemma CoinsInFirstRows20()
    ensures CountRows(Template, C, 20) == 120
  {
    CoinsInFirstRows16();
    Row16Coins(); assert CountRows(Template, C, 17) == 114;
    Row17Coins(); assert CountRows(Template, C, 18) == 116;
    Row18Coins(); assert CountRows(Template, C, 19) == 118;
    Row19Coins(); assert CountRows(Template, C, 20) == 120;
  }

  lemma CoinsInFirstRows24()
    ensures CountRows(Template, C, 24) == 174
  {
    CoinsInFirstRows20();
    Row20Coins(); assert CountRows(Template, C, 21) == 144;
    Row21Coins(); assert CountRows(Template, C, 22) == 150;
    Row22Coins(); assert CountRows(Template, C, 23) == 156;
    Row23Coins(); assert CountRows(Template, C, 24) == 174;
  }

  lemma CoinsInFirstRows28()
    ensures CountRows(Template, C, 28) == 210
  {
    CoinsInFirstRows24();
    Row24Coins(); assert CountRows(Template, C, 25) == 180;
    Row25Coins(); assert CountRows(Template, C, 26) == 186;
    Row26Coins(); assert CountRows(Template, C, 27) == 206;
    Row27Coins(); assert CountRows(Template, C, 28) == 210;
  }

  /** The initial `coinCount` is the number of coin cells of the map. */
  lemma TemplateCoinCount()
    ensures CountRows(Template, C, BoardHeight) == InitialCoinCount
  {
    CoinsInFirstRows28();
    Row28Coins(); assert CountRows(Template, C, 29) == 214;
    Row29Coins(); assert CountRows(Template, C, 30) == 240;
    Row30Coins(); assert CountRows(Template, C, 31) == 240;
  }

  // The rows other than 3, 14 and 23 start no entity.
  lemma Row00Plain() ensures forall j | 0 <= j < |Row00| :: Plain(Row00[j]) {}
  lemma Row01Plain() ensures forall j | 0 <= j < |Row01| :: Plain(Row01[j]) {}
  lemma Row02Plain() ensures forall j | 0 <= j < |Row02| :: Plain(Row02[j]) {}
  lemma Row04Plain() ensures forall j | 0 <= j < |Row04| :: Plain(Row04[j]) {}
  lemma Row05Plain() ensures forall j | 0 <= j < |Row05| :: Plain(Row05[j]) {}
  lemma Row06Plain() ensures forall j | 0 <= j < |Row06| :: Plain(Row06[j]) {}
  lemma Row07Plain() ensures forall j | 0 <= j < |Row07| :: Plain(Row07[j]) {}
  lemma Row08Plain() ensures forall j | 0 <= j < |Row08| :: Plain(Row08[j]) {}
  lemma Row09Plain() ensures forall j | 0 <= j < |Row09| :: Plain(Row09[j]) {}
  lemma Row10Plain() ensures forall j | 0 <= j < |Row10| :: Plain(Row10[j]) {}
  lemma Row11Plain() ensures forall j | 0 <= j < |Row11| :: Plain(Row11[j]) {}
  lemma Row12Plain() ensures forall j | 0 <= j < |Row12| :: Plain(Row12[j]) {}
  lemma Row13Plain() ensures forall j | 0 <= j < |Row13| :: Plain(Row13[j]) {}
  lemma Row15Plain() ensures forall j | 0 <= j < |Row15| :: Plain(Row15[j]) {}
  lemma Row16Plain() ensures forall j | 0 <= j < |Row16| :: Plain(Row16[j]) {}
  lemma Row17Plain() ensures forall j | 0 <= j < |Row17| :: Plain(Row17[j]) {}
  lemma Row18Plain() ensures forall j | 0 <= j < |Row18| :: Plain(Row18[j]) {}
  lemma Row19Plain() ensures forall j | 0 <= j < |Row19| :: Plain(Row19[j]) {}
  lemma Row20Plain() ensures forall j | 0 <= j < |Row20| :: Plain(Row20[j]) {}
  lemma Row21Plain() ensures forall j | 0 <= j < |Row21| :: Plain(Row21[j]) {}
  lemma Row22Plain() ensures forall j | 0 <= j < |Row22| :: Plain(Row22[j]) {}
  lemma Row24Plain() ensures forall j | 0 <= j < |Row24| :: Plain(Row24[j]) {}
  lemma Row25Plain() ensures forall j | 0 <= j < |Row25| :: Plain(Row25[j]) {}
  lemma Row26Plain() ensures forall j | 0 <= j < |Row26| :: Plain(Row26[j]) {}
  lemma Row27Plain() ensures forall j | 0 <= j < |Row27| :: Plain(Row27[j]) {}
  lemma Row28Plain() ensures forall j | 0 <= j < |Row28| :: Plain(Row28[j]) {}
  lemma Row29Plain() ensures forall j | 0 <= j < |Row29| :: Plain(Row29[j]) {}
  lemma Row30Plain() ensures forall j | 0 <= j < |Row30| :: Plain(Row30[j]) {}

  lemma PlainRows0To3()
    ensures PlainRows(Template, 0, 3)
  {
    Row00Plain(); Row01Plain(); Row02Plain();
  }

  lemma PlainRows4To9()
    ensures PlainRows(Template, 4, 9)
  {
    Row04Plain(); Row05Plain(); Row06Plain(); Row07Plain(); Row08Plain();
  }

  lemma PlainRows9To14()
    ensures PlainRows(Template, 9, 14)
  {
    Row09Plain(); Row10Plain(); Row11Plain(); Row12Plain(); Row13Plain();
  }

  lemma PlainRows15To19()
    ensures PlainRows(Template, 15, 19)
  {
    Row15Plain(); Row16Plain(); Row17Plain(); Row18Plain();
  }

  lemma PlainRows19To23()
    ensures PlainRows(Template, 19, 23)
  {
    Row19Plain(); Row20Plain(); Row21Plain(); Row22Plain();
  }

  lemma PlainRows24To31()
    ensures PlainRows(Template, 24, 31)
  {
    Row24Plain(); Row25Plain(); Row26Plain(); Row27Plain(); Row28Plain(); Row29Plain(); Row30Plain();
  }

  /** Row 3 holds its two pellets at columns 1 and 26. */
  lemma Row03Cells()
    ensures At(Row03, P, {1, 26})
  {
  }

  /** Row 3 holds no player or ghost start. */
  lemma Row03Lacks(c: Cell)
    requires c == S || c == m || c == t || c == e
    ensures Count(Row03, c) == 0
  {
    assert At(Row03, c, {});
    CountAt(Row03, c, {});
  }

  /** Row 14 holds the three ghost starts at columns 12, 13 and 14. */
  lemma Row14Cells()
    ensures At(Row14, m, {12}) && At(Row14, t, {13}) && At(Row14, e, {14})
  {
  }

  /** Row 14 holds no pellet and no player start. */
  lemma Row14Lacks(c: Cell)
    requires c == S || c == P
    ensures Count(Row14, c) == 0
  {
    assert At(Row14, c, {});
    CountAt(Row14, c, {});
  }

  /** Row 23 holds its two pellets at columns 1 and 26 and the player start at column 13. */
  lemma Row23Cells()
    ensures At(Row23, P, {1, 26}) && At(Row23, S, {13})
  {
  }

  /** Row 23 holds no ghost start. */
  lemma Row23Lacks(c: Cell)
    requires c == m || c == t || c == e
    ensures Count(Row23, c) == 0
  {
    assert At(Row23, c, {});
    CountAt(Row23, c, {});
  }

  lemma PlainRows4To14() ensures PlainRows(Template, 4, 14) { PlainRows4To9(); PlainRows9To14(); }
  lemma PlainRows15To23() ensures PlainRows(Template, 15, 23) { PlainRows15To19(); PlainRows19To23(); }

  /** Only rows 3, 14 and 23 hold entity starts. */
  lemma {:induction false} SpecialCountUpper(c: Cell)
    requires !Plain(c)
    ensures CountRows(Template, c, 15) == Count(Row03, c) + Count(Row14, c)
  {
    PlainRows0To3();
    CountPlainRows(Template, c, 0, 3);
    assert Template[3] == Row03;
    PlainRows4To14();
    CountPlainRows(Template, c, 4, 14);
    assert Template[14] == Row14;
  }

  lemma {:induction false} SpecialCount(c: Cell)
    requires !Plain(c)
    ensures CountRows(Template, c, BoardHeight) == Count(Row03, c) + Count(Row14, c) + Count(Row23, c)
  {
    SpecialCountUpper(c);
    PlainRows15To23();
    CountPlainRows(Template, c, 15, 23);
    assert Template[23] == Row23;
    PlainRows24To31();
    CountPlainRows(Template, c, 24, BoardHeight);
  }

  /** There is exactly one player start, at row 23, column 13. */
  lemma StartCellIsUnique()
    ensures CountRows(Template, S, BoardHeight) == 1 && Template[23][13] == S
  {
    SpecialCount(S);
    Row03Lacks(S);
    Row14Lacks(S);
    Row23Cells(); CountAt(Row23, S, {13});
    assert Template[23] == Row23;
  }

  /** There is exactly one start of each ghost, on row 14 at columns 12, 13 and 14. */
  lemma GhostStartsAreUnique()
    ensures CountRows(Template, m, BoardHeight) == 1 && Template[14][12] == m
    ensures CountRows(Template, t, BoardHeight) == 1 && Template[14][13] == t
    ensures CountRows(Template, e, BoardHeight) == 1 && Template[14][14] == e
  {
    Row14Cells();
    assert Template[14] == Row14;
    SpecialCount(m); Row03Lacks(m); CountAt(Row14, m, {12}); Row23Lacks(m);
    SpecialCount(t); Row03Lacks(t); CountAt(Row14, t, {13}); Row23Lacks(t);
    SpecialCount(e); Row03Lacks(e); CountAt(Row14, e, {14}); Row23Lacks(e);
  }

  /** There are exactly four power pellets, at columns 1 and 26 of rows 3 and 23. */
  lemma PelletCells()
    ensures CountRows(Template, P, BoardHeight) == 4
    ensures Template[3][1] == P && Template[3][26] == P && Template[23][1] == P && Template[23][26] == P
  {
    SpecialCount(P);
    Row03Cells(); CountAt(Row03, P, {1, 26});
    Row14Lacks(P);
    Row23Cells(); CountAt(Row23, P, {1, 26});
    assert Template[3] == Row03 && Template[23] == Row23;
  }
}
