/**
 * The earlier engine of src/game.rs: the same board and turn as the engine
 * of src/game/game.rs, but with no outcome, a bounds check that compares
 * with `>` instead of `>=`, and a rendering without newlines. Its Tile,
 * Player and Error enums are declared exactly like the newer engine's, so
 * this model shares those types.
 */
module Legacy {
  import opened Wrappers
  import opened Players
  import Engine

  /** The bounds check as written: a coordinate is rejected only above 3. */
  predicate Rejects(x: nat, y: nat)
  {
    x > Engine.BoardWidth || y > Engine.BoardWidth
  }

  /**
   * The coordinates for which `put_tile` does not index past the nine
   * tiles. For the others (x and y at most 3, y*3+x at least 9) the Rust
   * code panics.
   */
  predicate IndexInRange(x: nat, y: nat)
  {
    Rejects(x, y) || Engine.Index(x, y) < Engine.TileCount
  }

  /**
   * Exactly the coordinates on the edge x = 3 or y = 3 pass the check
   * although they are off the board.
   */
  lemma AdmittedOffBoard(x: nat, y: nat)
    ensures !Rejects(x, y) && !Engine.InBounds(x, y) <==> (x == 3 && y <= 3) || (y == 3 && x <= 3)
  {
  }

  /**
   * (3, 0) is accepted and lands on cell (0, 1); (3, 2) is accepted and
   * indexes past the board.
   */
  lemma OffByOneWitness()
    ensures !Rejects(3, 0) && !Engine.InBounds(3, 0) && Engine.Index(3, 0) == Engine.Index(0, 1)
    ensures !Rejects(3, 2) && !IndexInRange(3, 2)
  {
  }

  /** The three rows joined by the bare separator, with no newline at all. */
  function Render(b: Engine.Board): string
  {
    Engine.RowText(b, 0) + Engine.Separator + Engine.RowText(b, 1) + Engine.Separator + Engine.RowText(b, 2)
  }

  /**
   * The rendered board is 52 characters on a single line: row y starts at
   * 21y, the separators sit at 10 and 31, and no character is a newline.
   */
  lemma RenderLayout(b: Engine.Board)
    ensures |Render(b)| == 52
    ensures Render(b)[..10] == Engine.RowText(b, 0)
    ensures Render(b)[10..21] == Engine.Separator
    ensures Render(b)[21..31] == Engine.RowText(b, 1)
    ensures Render(b)[31..42] == Engine.Separator
    ensures Render(b)[42..] == Engine.RowText(b, 2)
    ensures '\n' !in Render(b)
  {
    var r0, r1, r2 := Engine.RowText(b, 0), Engine.RowText(b, 1), Engine.RowText(b, 2);
    var r := Render(b);
    assert r == r0 + Engine.Separator + r1 + Engine.Separator + r2;
    assert r[..10] == r0;
    assert r[10..21] == Engine.Separator;
    assert r[21..31] == r1;
    assert r[31..42] == Engine.Separator;
    assert r[42..] == r2;
    NoNewlineInRow(b, 0);
    NoNewlineInRow(b, 1);
    NoNewlineInRow(b, 2);
    assert '\n' !in Engine.Separator;
  }

  lemma NoNewlineInRow(b: Engine.Board, y: nat)
    requires y < Engine.BoardWidth
    ensures '\n' !in Engine.RowText(b, y)
  {
    var s := Engine.RowText(b, y);
    forall i | 0 <= i < |s|
      ensures s[i] != '\n'
    {
      var x := i / 4;
      if i % 4 == 1 {
        assert s[4 * x + 1] == Engine.TileChar(b[Engine.Index(x, y)]);
      }
    }
  }

  class Game {
    const board: array<Engine.Tile>
    var turn: Player

    ghost predicate Valid()
    {
      board.Length == Engine.TileCount
    }

    ghost function Tiles(): Engine.Board
      reads board
      requires Valid()
    {
      board[..]
    }

    /** `Game::new`: nine Empty tiles and P1 to move. */
    constructor ()
      ensures Valid() && fresh(board)
      ensures Tiles() == seq(Engine.TileCount, _ => Engine.Empty)
      ensures turn == P1
    {
      board := new Engine.Tile[Engine.TileCount](_ => Engine.Empty);
      turn := P1;
    }

    method ToggleTurn()
      modifies this`turn
      ensures turn == Opponent(old(turn))
    {
      turn := match turn
        case P1 => P2
        case P2 => P1;
    }

    /**
     * Checks the coordinates with the as-written bound, then the occupancy
     * of tile y*3+x, and writes the tile only when both checks pass.
     */
    method PutTile(x: nat, y: nat, tile: Engine.Tile) returns (r: Result<(), Engine.Error>)
      requires Valid() && IndexInRange(x, y)
      modifies board
      ensures Rejects(x, y) ==> r == Err(Engine.InvalidCoordinates)
      ensures !Rejects(x, y) && old(board[Engine.Index(x, y)]).Used? ==> r == Err(Engine.TileAlreadyUsed)
      ensures !Rejects(x, y) && old(board[Engine.Index(x, y)]) == Engine.Empty ==> r == Ok(())
      ensures r.Err? ==> board[..] == old(board[..])
      ensures r.Ok? ==> board[..] == old(board[..])[Engine.Index(x, y) := tile]
    {
      var index := Engine.Index(x, y);
      if x > Engine.BoardWidth || y > Engine.BoardWidth {
        return Err(Engine.InvalidCoordinates);
      } else if board[index].Used? {
        return Err(Engine.TileAlreadyUsed);
      }
      board[index] := tile;
      return Ok(());
    }

    /**
     * `play`: on success tile y*3+x carries the mark of the player who was
     * to move, nothing else changed and the turn passed on; on either error
     * nothing changed.
     */
    method Play(x: nat, y: nat) returns (r: Result<(), Engine.Error>)
      requires Valid() && IndexInRange(x, y)
      modifies this, board
      ensures Rejects(x, y) ==> r == Err(Engine.InvalidCoordinates)
      ensures !Rejects(x, y) && old(board[Engine.Index(x, y)]).Used? ==> r == Err(Engine.TileAlreadyUsed)
      ensures !Rejects(x, y) && old(board[Engine.Index(x, y)]) == Engine.Empty ==> r == Ok(())
      ensures r.Err? ==> board[..] == old(board[..]) && turn == old(turn)
      ensures r.Ok? ==> board[..] == old(board[..])[Engine.Index(x, y) := Engine.Used(old(turn))]
      ensures r.Ok? ==> turn == Opponent(old(turn))
    {
      var tile := Engine.Used(turn);
      r := PutTile(x, y, tile);
      if r.Err? {
        return;
      }
      ToggleTurn();
    }

    /** `Display for Game`: the rows and separators written back to back. */
    method Fmt() returns (s: string)
      requires Valid()
      ensures s == Render(Tiles())
    {
      ghost var b := Tiles();
      s := "";
      for y := 0 to Engine.BoardWidth
        invariant y == 0 ==> s == ""
        invariant y == 1 ==> s == Engine.RowText(b, 0)
        invariant y == 2 ==> s == Engine.RowText(b, 0) + Engine.Separator + Engine.RowText(b, 1)
        invariant y == 3 ==> s == Render(b)
      {
        var line := "";
        if y > 0 {
          s := s + "---+---+---";
        }
        for x := 0 to Engine.BoardWidth
          invariant line == Engine.RowPrefix(b, y, x)
        {
          var tile := board[Engine.Index(x, y)];
          if x > 0 {
            line := line + " |";
          }
          line := line + [' '];
          line := line + [match tile
            case Empty => ' '
            case Used(P1) => 'X'
            case Used(P2) => 'O'];
        }
        Engine.RowPrefixComplete(b, y);
        s := s + line;
      }
    }
  }
}
