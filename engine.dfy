/**
 * The tic-tac-toe engine of src/game/game.rs: a 3x3 board stored row-major
 * in a fixed array of nine tiles, the player to move, and the cached
 * outcome that every successful move recomputes.
 */
module Engine {
  import opened Wrappers
  import opened Players

  const BoardWidth: nat := 3

  /** Number of tiles on the board: BoardWidth * BoardWidth. */
  const TileCount: nat := 9

  datatype Tile = Empty | Used(player: Player)

  /** `Winner::Nobody` is a draw; `Winner::Player(p)` is written `Won(p)` here. */
  datatype Winner = Nobody | Won(player: Player)

  datatype Error = InvalidCoordinates | TileAlreadyUsed

  /** The contents of a board: nine tiles, row-major. */
  type Board = b: seq<Tile> | |b| == TileCount witness seq(TileCount, _ => Empty)

  /**
   * `compute_index_with_coordinates!`: the row-major index of cell (x, y),
   * y * BoardWidth + x. The width is written as the literal 3 so that the
   * index stays linear arithmetic for the solver.
   */
  function Index(x: nat, y: nat): nat
  {
    y * 3 + x
  }

  predicate InBounds(x: nat, y: nat)
  {
    x < BoardWidth && y < BoardWidth
  }

  /** Every cell on the board has exactly one index, and every index one cell. */
  lemma IndexBijective(x: nat, y: nat, x': nat, y': nat)
    requires InBounds(x, y) && InBounds(x', y')
    ensures Index(x, y) < TileCount
    ensures Index(x, y) == Index(x', y') <==> x == x' && y == y'
    ensures Index(x, y) % BoardWidth == x && Index(x, y) / BoardWidth == y
  {
  }

  lemma IndexCovers(i: nat)
    requires i < TileCount
    ensures InBounds(i % BoardWidth, i / BoardWidth)
    ensures Index(i % BoardWidth, i / BoardWidth) == i
  {
  }

  // ---------------------------------------------------------------------
  // Lines and the outcome of a board

  /** Three tile indices that make a row, a column or a diagonal. */
  datatype Line = Line(first: nat, second: nat, third: nat)

  /** A line all of whose tiles are on the board. */
  predicate OnBoard(l: Line)
  {
    l.first < TileCount && l.second < TileCount && l.third < TileCount
  }

  function Row(y: nat): (l: Line)
    requires y < BoardWidth
    ensures OnBoard(l)
  {
    Line(Index(0, y), Index(1, y), Index(2, y))
  }

  function Column(x: nat): (l: Line)
    requires x < BoardWidth
    ensures OnBoard(l)
  {
    Line(Index(x, 0), Index(x, 1), Index(x, 2))
  }

  const Diagonal: Line := Line(Index(0, 0), Index(1, 1), Index(2, 2))

  const AntiDiagonal: Line := Line(Index(2, 0), Index(1, 1), Index(0, 2))

  /** Number of lines the outcome looks at. */
  const LineCount: nat := 8

  /**
   * The k-th line in the order `get_winner` scans them: row i, then column i,
   * for i = 0, 1, 2; then the main diagonal; then the anti-diagonal.
   */
  function ScanLine(k: nat): (l: Line)
    requires k < LineCount
    ensures OnBoard(l)
  {
    if k == 0 then Row(0)
    else if k == 1 then Column(0)
    else if k == 2 then Row(1)
    else if k == 3 then Column(1)
    else if k == 4 then Row(2)
    else if k == 5 then Column(2)
    else if k == 6 then Diagonal
    else AntiDiagonal
  }

  /** The scan visits row i at position 2i and column i at 2i + 1, then the diagonals. */
  lemma ScanOrder(k: nat)
    requires k < LineCount
    ensures k < 6 && k % 2 == 0 ==> ScanLine(k) == Row(k / 2)
    ensures k < 6 && k % 2 == 1 ==> ScanLine(k) == Column(k / 2)
    ensures k == 6 ==> ScanLine(k) == Diagonal
    ensures k == 7 ==> ScanLine(k) == AntiDiagonal
  {
  }

  lemma ScanRowColumn(i: nat)
    requires i < BoardWidth
    ensures ScanLine(2 * i) == Row(i) && ScanLine(2 * i + 1) == Column(i)
  {
    if i == 0 {
      assert ScanLine(0) == Row(0) && ScanLine(1) == Column(0);
    } else if i == 1 {
      assert ScanLine(2) == Row(1) && ScanLine(3) == Column(1);
    } else {
      assert i == 2;
      assert ScanLine(4) == Row(2) && ScanLine(5) == Column(2);
    }
  }

  /** All three tiles of the k-th line carry p's mark. */
  predicate LineWonBy(b: Board, k: nat, p: Player)
    requires k < LineCount
  {
    var l := ScanLine(k);
    b[l.first] == Used(p) && b[l.second] == Used(p) && b[l.third] == Used(p)
  }

  predicate LineWon(b: Board, k: nat)
    requires k < LineCount
  {
    LineWonBy(b, k, P1) || LineWonBy(b, k, P2)
  }

  /** A line cannot be won by both players. */
  lemma LineHasOneOwner(b: Board, k: nat, p: Player, q: Player)
    requires k < LineCount && LineWonBy(b, k, p) && LineWonBy(b, k, q)
    ensures p == q
  {
  }

  /** No line at scan positions k .. m-1 is won. */
  predicate NoWinBetween(b: Board, k: nat, m: nat)
    requires k <= m <= LineCount
  {
    forall j :: k <= j < m ==> !LineWon(b, j)
  }

  /**
   * The test `get_winner` makes on the k-th line: its first tile is Used and
   * the other two equal it. The result is that tile's player.
   */
  function LineOwner(b: Board, k: nat): Option<Player>
    requires k < LineCount
  {
    var l := ScanLine(k);
    var tile := b[l.first];
    if tile.Used? && tile == b[l.second] && tile == b[l.third] then Some(tile.player) else None
  }

  /** The line test reports a player exactly for a line all of whose tiles carry that player's mark. */
  lemma LineOwnerSpec(b: Board, k: nat)
    requires k < LineCount
    ensures LineOwner(b, k).Some? <==> LineWon(b, k)
    ensures forall p :: LineOwner(b, k) == Some(p) <==> LineWonBy(b, k, p)
  {
    var tile := b[ScanLine(k).first];
    if tile.Used? {
      assert tile.player == P1 || tile.player == P2;
    }
  }

  /** The result of the line test for every line, in scan order. */
  function Owners(b: Board): (os: seq<Option<Player>>)
    ensures |os| == LineCount
    ensures forall k :: 0 <= k < LineCount ==> os[k] == LineOwner(b, k)
  {
    seq(LineCount, k requires 0 <= k < LineCount => LineOwner(b, k))
  }

  /** The first decided line test at or after position k. */
  function FirstOwner(os: seq<Option<Player>>, k: nat): Option<Player>
    requires k <= |os|
    decreases |os| - k
  {
    if k == |os| then None
    else if os[k].Some? then os[k]
    else FirstOwner(os, k + 1)
  }

  /** No line test at positions k .. m-1 is decided. */
  predicate Undecided(os: seq<Option<Player>>, k: nat, m: nat)
    requires k <= m <= |os|
  {
    forall j :: k <= j < m ==> os[j] == None
  }

  /** The scan reports only a decided line, with none decided before it. */
  lemma {:induction false} FirstOwnerSound(os: seq<Option<Player>>, k: nat, p: Player) returns (m: nat)
    requires k <= |os| && FirstOwner(os, k) == Some(p)
    ensures k <= m < |os| && os[m] == Some(p) && Undecided(os, k, m)
    decreases |os| - k
  {
    if os[k].Some? {
      m := k;
    } else {
      m := FirstOwnerSound(os, k + 1, p);
    }
  }

  /** The first decided line from k on is the one the scan reports. */
  lemma {:induction false} FirstOwnerComplete(os: seq<Option<Player>>, k: nat, m: nat, p: Player)
    requires k <= m < |os| && os[m] == Some(p) && Undecided(os, k, m)
    ensures FirstOwner(os, k) == Some(p)
    decreases m - k
  {
    if k < m {
      FirstOwnerComplete(os, k + 1, m, p);
    }
  }

  /** The scan finds nothing exactly when no line from k on is decided. */
  lemma {:induction false} FirstOwnerNone(os: seq<Option<Player>>, k: nat)
    requires k <= |os|
    ensures FirstOwner(os, k) == None <==> Undecided(os, k, |os|)
    decreases |os| - k
  {
    if k < |os| {
      FirstOwnerNone(os, k + 1);
      if Undecided(os, k + 1, |os|) && os[k] == None {
        forall j | k <= j < |os|
          ensures os[j] == None
        {
          if j > k {
            assert k + 1 <= j < |os|;
          }
        }
      }
    }
  }

  /** A board's undecided line tests are exactly its lines nobody has won. */
  lemma UndecidedIsNoWin(b: Board, m: nat)
    requires m <= LineCount
    ensures Undecided(Owners(b), 0, m) <==> NoWinBetween(b, 0, m)
  {
    var os := Owners(b);
    if Undecided(os, 0, m) {
      forall j | 0 <= j < m
        ensures !LineWon(b, j)
      {
        assert os[j] == LineOwner(b, j);
        LineOwnerSpec(b, j);
      }
    }
    if NoWinBetween(b, 0, m) {
      forall j | 0 <= j < m
        ensures os[j] == None
      {
        assert !LineWon(b, j);
        LineOwnerSpec(b, j);
      }
    }
  }

  /** The outcome of a board, as `get_winner` defines it. */
  function WinnerOf(b: Board): Option<Winner>
  {
    match FirstOwner(Owners(b), 0)
    case Some(p) => Some(Won(p))
    case None => if Empty in b then None else Some(Nobody)
  }

  /**
   * The outcome of a board: the first won line in scan order decides it;
   * with no line won, the board is undecided while a tile is Empty and a
   * draw once all nine are used.
   */
  lemma WinnerOfSpec(b: Board)
    ensures forall p: Player :: WinnerOf(b) == Some(Won(p)) <==>
              exists k :: 0 <= k < LineCount && LineWonBy(b, k, p) && NoWinBetween(b, 0, k)
    ensures WinnerOf(b) == None <==> NoWinBetween(b, 0, LineCount) && Empty in b
    ensures WinnerOf(b) == Some(Nobody) <==> NoWinBetween(b, 0, LineCount) && Empty !in b
  {
    var os := Owners(b);
    FirstOwnerNone(os, 0);
    UndecidedIsNoWin(b, LineCount);
    forall p: Player
      ensures WinnerOf(b) == Some(Won(p)) <==>
                exists k :: 0 <= k < LineCount && LineWonBy(b, k, p) && NoWinBetween(b, 0, k)
    {
      if WinnerOf(b) == Some(Won(p)) {
        var k := FirstOwnerSound(os, 0, p);
        UndecidedIsNoWin(b, k);
        assert os[k] == LineOwner(b, k);
        LineOwnerSpec(b, k);
      }
      if k :| 0 <= k < LineCount && LineWonBy(b, k, p) && NoWinBetween(b, 0, k) {
        UndecidedIsNoWin(b, k);
        assert os[k] == LineOwner(b, k);
        LineOwnerSpec(b, k);
        assert os[k].Some?;
        LineHasOneOwner(b, k, p, os[k].value);
        FirstOwnerComplete(os, 0, k, p);
      }
    }
  }

  /**
   * A won outcome always rests on a line whose three tiles carry the
   * winner's mark: a line that mixes players or has an Empty tile never wins.
   */
  lemma WinnerHasLine(b: Board, p: Player)
    requires WinnerOf(b) == Some(Won(p))
    ensures exists k :: 0 <= k < LineCount &&
              var l := ScanLine(k);
              b[l.first] == Used(p) && b[l.second] == Used(p) && b[l.third] == Used(p)
  {
    var os := Owners(b);
    var k := FirstOwnerSound(os, 0, p);
    assert os[k] == LineOwner(b, k);
    LineOwnerSpec(b, k);
  }

  /**
   * The scan at line k: a line whose first tile is Used and equal to the
   * other two is what the scan reports from line k on; otherwise the scan
   * goes on to line k + 1.
   */
  lemma ScanAt(b: Board, k: nat)
    requires k < LineCount
    ensures var l, os := ScanLine(k), Owners(b);
            var t := b[l.first];
            if t.Used? && t == b[l.second] && t == b[l.third]
            then FirstOwner(os, k) == Some(t.player)
            else FirstOwner(os, k) == FirstOwner(os, k + 1)
  {
    assert Owners(b)[k] == LineOwner(b, k);
  }

  /** The scan at row i, as `get_winner` tests it: line 2i. */
  lemma RowScan(b: Board, i: nat)
    requires i < BoardWidth
    ensures var t, os := b[Index(0, i)], Owners(b);
            if t.Used? && t == b[Index(1, i)] && t == b[Index(2, i)]
            then FirstOwner(os, 2 * i) == Some(t.player)
            else FirstOwner(os, 2 * i) == FirstOwner(os, 2 * i + 1)
  {
    ScanRowColumn(i);
    ScanAt(b, 2 * i);
  }

  /** The scan at column i, as `get_winner` tests it: line 2i + 1. */
  lemma ColumnScan(b: Board, i: nat)
    requires i < BoardWidth
    ensures var t, os := b[Index(i, 0)], Owners(b);
            if t.Used? && t == b[Index(i, 1)] && t == b[Index(i, 2)]
            then FirstOwner(os, 2 * i + 1) == Some(t.player)
            else FirstOwner(os, 2 * i + 1) == FirstOwner(os, 2 * i + 2)
  {
    ScanRowColumn(i);
    ScanAt(b, 2 * i + 1);
  }

  // ---------------------------------------------------------------------
  // Rendering (`Display for Game`)

  /** The character shown for a tile. */
  function TileChar(t: Tile): (c: char)
    ensures c == ' ' <==> t == Empty
    ensures t.Used? ==> c == Mark(t.player)
  {
    match t
    case Empty => ' '
    case Used(p) => Mark(p)
  }

  lemma TileCharInjective(s: Tile, t: Tile)
    ensures TileChar(s) == TileChar(t) <==> s == t
  {
    if s.Used? && t.Used? {
      MarkInjective(s.player, t.player);
    }
  }

  /** One rendered row, `" a | b | c"`: cell x at column 4x+1, bars at 3 and 7. */
  function RowText(b: Board, y: nat): (s: string)
    requires y < BoardWidth
    ensures |s| == 10
    ensures s[1] == TileChar(b[Index(0, y)]) && s[5] == TileChar(b[Index(1, y)]) && s[9] == TileChar(b[Index(2, y)])
    ensures s[3] == '|' && s[7] == '|'
    ensures s[0] == s[2] == s[4] == s[6] == s[8] == ' '
  {
    [' ', TileChar(b[Index(0, y)]), ' ', '|',
     ' ', TileChar(b[Index(1, y)]), ' ', '|',
     ' ', TileChar(b[Index(2, y)])]
  }

  /** The first n cells of row y as `fmt` builds them: `" |"` before every cell but the first. */
  function RowPrefix(b: Board, y: nat, n: nat): string
    requires y < BoardWidth && n <= BoardWidth
  {
    if n == 0 then []
    else RowPrefix(b, y, n - 1) + (if n > 1 then " |" else "") + [' ', TileChar(b[Index(n - 1, y)])]
  }

  /** Building a row cell by cell gives the row. */
  lemma RowPrefixComplete(b: Board, y: nat)
    requires y < BoardWidth
    ensures RowPrefix(b, y, BoardWidth) == RowText(b, y)
  {
    assert RowPrefix(b, y, 1) == [' ', TileChar(b[Index(0, y)])];
    assert RowPrefix(b, y, 2) == [' ', TileChar(b[Index(0, y)]), ' ', '|', ' ', TileChar(b[Index(1, y)])];
  }

  const Separator: string := "---+---+---"

  /**
   * The rendered board: row 0, the separator, row 1, the separator and
   * row 2, joined by newlines, with no newline at the end.
   */
  function Render(b: Board): string
  {
    RowText(b, 0) + "\n" + Separator + "\n" + RowText(b, 1) + "\n" + Separator + "\n" + RowText(b, 2)
  }

  /** Where cell (x, y) is shown in the rendered board. */
  function CellColumn(x: nat, y: nat): nat
  {
    23 * y + 4 * x + 1
  }

  /**
   * The rendered board is 56 characters: row y starts at 23y, the
   * separators fill columns 11 to 21 and 34 to 44, newlines sit at 10, 22,
   * 33 and 45, and cell (x, y) is shown at 23y + 4x + 1.
   */
  lemma RenderLayout(b: Board)
    ensures |Render(b)| == 56
    ensures Render(b)[..10] == RowText(b, 0) && Render(b)[23..33] == RowText(b, 1) && Render(b)[46..] == RowText(b, 2)
    ensures Render(b)[11..22] == Separator && Render(b)[34..45] == Separator
    ensures Render(b)[10] == Render(b)[22] == Render(b)[33] == Render(b)[45] == '\n'
    ensures forall x, y :: InBounds(x, y) ==> Render(b)[CellColumn(x, y)] == TileChar(b[Index(x, y)])
  {
    RenderSlices(b);
    forall x, y | InBounds(x, y)
      ensures Render(b)[CellColumn(x, y)] == TileChar(b[Index(x, y)])
    {
      RenderCell(b, x, y);
    }
  }

  lemma RenderSlices(b: Board)
    ensures |Render(b)| == 56
    ensures Render(b)[..10] == RowText(b, 0) && Render(b)[23..33] == RowText(b, 1) && Render(b)[46..] == RowText(b, 2)
    ensures Render(b)[11..22] == Separator && Render(b)[34..45] == Separator
    ensures Render(b)[10] == Render(b)[22] == Render(b)[33] == Render(b)[45] == '\n'
  {
    var r0, r1, r2 := RowText(b, 0), RowText(b, 1), RowText(b, 2);
    var p1 := r0 + "\n";
    var p2 := p1 + Separator;
    var p3 := p2 + "\n";
    var p4 := p3 + r1;
    var p5 := p4 + "\n";
    var p6 := p5 + Separator;
    var p7 := p6 + "\n";
    var r := p7 + r2;
    assert r == Render(b);
    assert r[..46] == p7 && r[46..] == r2;
    assert p7[..45] == p6 && p6[..34] == p5 && p5[..33] == p4 && p4[..23] == p3;
    assert p3[..22] == p2 && p2[..11] == p1 && p1[..10] == r0;
    assert r[..33] == p4 && r[..22] == p2 && r[..45] == p6 && r[..10] == r0;
    assert p4[23..] == r1 && p2[11..] == Separator && p6[34..] == Separator;
    assert r[10] == p1[10] && r[22] == p3[22] && r[33] == p5[33] && r[45] == p7[45];
  }

  lemma RenderCell(b: Board, x: nat, y: nat)
    requires InBounds(x, y)
    ensures |Render(b)| == 56
    ensures Render(b)[CellColumn(x, y)] == TileChar(b[Index(x, y)])
  {
    RenderSlices(b);
    CellOfRows(Render(b), b, x, y);
  }

  /** Any 56-character text holding the three rows at 0, 23 and 46 shows cell (x, y) at 23y + 4x + 1. */
  lemma CellOfRows(r: string, b: Board, x: nat, y: nat)
    requires InBounds(x, y)
    requires |r| == 56 && r[..10] == RowText(b, 0) && r[23..33] == RowText(b, 1) && r[46..] == RowText(b, 2)
    ensures r[CellColumn(x, y)] == TileChar(b[Index(x, y)])
  {
    var c := 4 * x + 1;
    var row := RowText(b, y);
    assert row[c] == TileChar(b[Index(x, y)]) by {
      if x == 0 {
      } else if x == 1 {
      } else {
      }
    }
    if y == 0 {
      assert r[..10][c] == r[c];
    } else if y == 1 {
      assert r[23..33][c] == r[23 + c];
    } else {
      assert r[46..][c] == r[46 + c];
    }
  }

  /** The rendering determines the board: two boards that print alike are equal. */
  lemma RenderInjective(b: Board, c: Board)
    requires Render(b) == Render(c)
    ensures b == c
  {
    RenderLayout(b);
    RenderLayout(c);
    forall i | 0 <= i < TileCount
      ensures b[i] == c[i]
    {
      IndexCovers(i);
      var x, y := i % BoardWidth, i / BoardWidth;
      assert Render(b)[CellColumn(x, y)] == TileChar(b[i]);
      assert Render(c)[CellColumn(x, y)] == TileChar(c[i]);
      TileCharInjective(b[i], c[i]);
    }
  }

  /** The empty board is undecided. */
  lemma EmptyBoardUndecided()
    ensures WinnerOf(seq(TileCount, _ => Empty)) == None
  {
    var e: Board := seq(TileCount, _ => Empty);
    assert NoWinBetween(e, 0, LineCount);
    UndecidedIsNoWin(e, LineCount);
    FirstOwnerNone(Owners(e), 0);
  }

  /** The board of the `equality` test: full, and no line won, so a draw. */
  lemma DrawExample()
    ensures WinnerOf([Used(P1), Used(P1), Used(P2),
                      Used(P2), Used(P2), Used(P1),
                      Used(P1), Used(P2), Used(P1)]) == Some(Nobody)
  {
    var d: Board := [Used(P1), Used(P1), Used(P2), Used(P2), Used(P2), Used(P1), Used(P1), Used(P2), Used(P1)];
    var os := Owners(d);
    assert os[0] == LineOwner(d, 0) == None;
    assert os[1] == LineOwner(d, 1) == None;
    assert os[2] == LineOwner(d, 2) == None;
    assert os[3] == LineOwner(d, 3) == None;
    assert os[4] == LineOwner(d, 4) == None;
    assert os[5] == LineOwner(d, 5) == None;
    assert os[6] == LineOwner(d, 6) == None;
    assert os[7] == LineOwner(d, 7) == None;
    assert FirstOwner(os, 0) == FirstOwner(os, 2) == FirstOwner(os, 4);
    assert FirstOwner(os, 4) == FirstOwner(os, 6) == FirstOwner(os, 8) == None;
    assert Empty !in d;
  }

  /** The board of the `winner_on_last_diagonal` test: P2 holds the anti-diagonal. */
  lemma AntiDiagonalExample()
    ensures WinnerOf([Empty, Empty, Used(P2),
                      Empty, Used(P2), Empty,
                      Used(P2), Empty, Empty]) == Some(Won(P2))
  {
    var a: Board := [Empty, Empty, Used(P2), Empty, Used(P2), Empty, Used(P2), Empty, Empty];
    var os := Owners(a);
    assert os[0] == LineOwner(a, 0) == None;
    assert os[1] == LineOwner(a, 1) == None;
    assert os[2] == LineOwner(a, 2) == None;
    assert os[3] == LineOwner(a, 3) == None;
    assert os[4] == LineOwner(a, 4) == None;
    assert os[5] == LineOwner(a, 5) == None;
    assert os[6] == LineOwner(a, 6) == None;
    assert os[7] == LineOwner(a, 7) == Some(P2);
    assert FirstOwner(os, 0) == FirstOwner(os, 2) == FirstOwner(os, 4);
    assert FirstOwner(os, 4) == FirstOwner(os, 6) == FirstOwner(os, 7) == Some(P2);
  }

  /** The rendering tests: the empty board, and X X / O in the first two rows. */
  lemma RenderExamples()
    ensures Render(seq(TileCount, _ => Empty)) ==
              "   |   |  " + "\n" + "---+---+---" + "\n" + "   |   |  " + "\n" + "---+---+---" + "\n" + "   |   |  "
    ensures Render([Used(P1), Used(P1), Empty, Empty, Used(P2), Empty, Empty, Empty, Empty]) ==
              " X | X |  " + "\n" + "---+---+---" + "\n" + "   | O |  " + "\n" + "---+---+---" + "\n" + "   |   |  "
  {
    var e: Board := seq(TileCount, _ => Empty);
    assert RowText(e, 0) == RowText(e, 1) == RowText(e, 2) == "   |   |  ";
    var b: Board := [Used(P1), Used(P1), Empty, Empty, Used(P2), Empty, Empty, Empty, Empty];
    assert RowText(b, 0) == " X | X |  ";
    assert RowText(b, 1) == "   | O |  ";
    assert RowText(b, 2) == "   |   |  ";
  }

  // ---------------------------------------------------------------------
  // Counting marks: moves alternate, so the marks stay balanced

  function CountMarks(s: seq<Tile>, p: Player): (n: nat)
    ensures n <= |s|
  {
    if s == [] then 0 else (if s[0] == Used(p) then 1 else 0) + CountMarks(s[1..], p)
  }

  lemma {:induction false} CountNone(s: seq<Tile>, p: Player)
    requires Used(p) !in s
    ensures CountMarks(s, p) == 0
  {
    if s != [] {
      CountNone(s[1..], p);
    }
  }

  /** Writing p over an Empty tile adds one p mark and no mark of the other player. */
  lemma {:induction false} CountAfterPlace(s: seq<Tile>, i: nat, p: Player)
    requires i < |s| && s[i] == Empty
    ensures CountMarks(s[i := Used(p)], p) == CountMarks(s, p) + 1
    ensures CountMarks(s[i := Used(p)], Opponent(p)) == CountMarks(s, Opponent(p))
  {
    if i > 0 {
      CountAfterPlace(s[1..], i - 1, p);
      assert s[i := Used(p)][1..] == s[1..][i - 1 := Used(p)];
    } else {
      assert s[i := Used(p)][1..] == s[1..];
    }
  }

  /**
   * The player to move has placed as many marks as the other (P1 to move)
   * or one fewer (P2 to move).
   */
  predicate Balanced(b: Board, turn: Player)
  {
    CountMarks(b, P1) == CountMarks(b, P2) + (if turn == P1 then 0 else 1)
  }

  /** A move onto an Empty tile by the player to move keeps the marks balanced. */
  lemma PlaceKeepsBalance(b: Board, turn: Player, i: nat)
    requires i < TileCount && b[i] == Empty && Balanced(b, turn)
    ensures Balanced(b[i := Used(turn)], Opponent(turn))
  {
    CountAfterPlace(b, i, turn);
  }

  // ---------------------------------------------------------------------
  // The game

  class Game {
    const board: array<Tile>
    var turn: Player
    var winner: Option<Winner>

    ghost predicate Valid()
    {
      board.Length == TileCount
    }

    /** The board as a value. */
    ghost function Tiles(): Board
      reads board
      requires Valid()
    {
      board[..]
    }

    /** The cached outcome agrees with the board. */
    ghost predicate Consistent()
      reads this, board
    {
      Valid() && winner == WinnerOf(Tiles())
    }

    /** `Game::new`: nine Empty tiles, P1 to move, no outcome yet. */
    constructor ()
      ensures Valid() && fresh(board)
      ensures Tiles() == seq(TileCount, _ => Empty)
      ensures turn == P1 && winner == None
      ensures Consistent() && Balanced(Tiles(), turn)
    {
      board := new Tile[TileCount](_ => Empty);
      turn := P1;
      winner := None;
      new;
      EmptyBoardUndecided();
      CountNone(Tiles(), P1);
      CountNone(Tiles(), P2);
    }

    method ToggleTurn()
      modifies this`turn
      ensures turn == Opponent(old(turn))
    {
      turn := match turn
        case P1 => P2
        case P2 => P1;
    }

    /**
     * Validates the coordinates, then the occupancy of the tile, and writes
     * the tile only when both checks pass.
     */
    method PutTile(x: nat, y: nat, tile: Tile) returns (r: Result<(), Error>)
      requires Valid()
      modifies board
      ensures !InBounds(x, y) ==> r == Err(InvalidCoordinates)
      ensures InBounds(x, y) && old(board[Index(x, y)]).Used? ==> r == Err(TileAlreadyUsed)
      ensures InBounds(x, y) && old(board[Index(x, y)]) == Empty ==> r == Ok(())
      ensures r.Err? ==> board[..] == old(board[..])
      ensures r.Ok? ==> board[..] == old(board[..])[Index(x, y) := tile]
    {
      var index := Index(x, y);
      if x >= BoardWidth || y >= BoardWidth {
        return Err(InvalidCoordinates);
      } else if board[index].Used? {
        return Err(TileAlreadyUsed);
      }
      board[index] := tile;
      return Ok(());
    }

    /**
     * `play`: on success the player to move has marked (x, y), nothing else
     * on the board changed, the turn passed to the other player and the
     * cached outcome is the new board's. On either error nothing changes.
     */
    method Play(x: nat, y: nat) returns (r: Result<(), Error>)
      requires Valid()
      modifies this, board
      ensures !InBounds(x, y) ==> r == Err(InvalidCoordinates)
      ensures InBounds(x, y) && old(board[Index(x, y)]).Used? ==> r == Err(TileAlreadyUsed)
      ensures InBounds(x, y) && old(board[Index(x, y)]) == Empty ==> r == Ok(())
      ensures r.Err? ==> board[..] == old(board[..]) && turn == old(turn) && winner == old(winner)
      ensures r.Ok? ==> board[..] == old(board[..])[Index(x, y) := Used(old(turn))]
      ensures r.Ok? ==> turn == Opponent(old(turn)) && winner == WinnerOf(Tiles())
      ensures forall i :: 0 <= i < TileCount && old(board[i]).Used? ==> board[i] == old(board[i])
      ensures old(Consistent()) ==> Consistent()
      ensures old(Balanced(Tiles(), turn)) ==> Balanced(Tiles(), turn)
    {
      var tile := Used(turn);
      r := PutTile(x, y, tile);
      if r.Err? {
        return;
      }
      ToggleTurn();
      winner := GetWinner();
      if old(Balanced(Tiles(), turn)) {
        PlaceKeepsBalance(old(Tiles()), old(turn), Index(x, y));
      }
    }

    /**
     * `get_winner`: rows and columns interleaved, then the two diagonals,
     * returning at the first line of three equal Used tiles; then a scan for
     * an Empty tile.
     */
    method GetWinner() returns (w: Option<Winner>)
      requires Valid()
      ensures w == WinnerOf(Tiles())
    {
      ghost var b := Tiles();
      ghost var os := Owners(b);
      for i := 0 to BoardWidth
        invariant FirstOwner(os, 0) == FirstOwner(os, 2 * i)
      {
        // row i
        var tile := board[Index(0, i)];
        RowScan(b, i);
        if tile.Used? && tile == board[Index(1, i)] && tile == board[Index(2, i)] {
          return Some(Won(tile.player));
        }
        // column i
        tile := board[Index(i, 0)];
        ColumnScan(b, i);
        if tile.Used? && tile == board[Index(i, 1)] && tile == board[Index(i, 2)] {
          return Some(Won(tile.player));
        }
      }

      var tile := board[Index(0, 0)];
      ScanAt(b, 6);
      if tile.Used? && tile == board[Index(1, 1)] && tile == board[Index(2, 2)] {
        return Some(Won(tile.player));
      }

      tile := board[Index(2, 0)];
      ScanAt(b, 7);
      if tile.Used? && tile == board[Index(1, 1)] && tile == board[Index(0, 2)] {
        return Some(Won(tile.player));
      }
      assert FirstOwner(os, 8) == None;

      for j := 0 to TileCount
        invariant forall k :: 0 <= k < j ==> b[k] != Empty
      {
        if board[j] == Empty {
          assert b[j] in b;
          return None;
        }
      }
      return Some(Nobody);
    }

    /** `Display for Game`: builds each row tile by tile and writes the rows. */
    method Fmt() returns (s: string)
      requires Valid()
      ensures s == Render(Tiles())
    {
      ghost var b := Tiles();
      s := "";
      for y := 0 to BoardWidth
        invariant y == 0 ==> s == ""
        invariant y == 1 ==> s == RowText(b, 0) + "\n"
        invariant y == 2 ==> s == RowText(b, 0) + "\n" + Separator + "\n" + RowText(b, 1) + "\n"
        invariant y == 3 ==> s == Render(b)
      {
        var line := "";
        if y > 0 {
          s := s + "---+---+---" + "\n";
        }
        for x := 0 to BoardWidth
          invariant line == RowPrefix(b, y, x)
        {
          if x > 0 {
            line := line + " |";
          }
          line := line + [' '];
          line := line + [TileChar(board[Index(x, y)])];
        }
        RowPrefixComplete(b, y);
        s := s + line;
        if y < BoardWidth - 1 {
          s := s + "\n";
        }
      }
    }
  }
}
