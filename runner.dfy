/**
 * The session runner (src/game/runner/mod.rs): turning one line of input
 * into a pair of coordinates, and the rule that decides when a session of
 * moves is over. Printing is not modelled; the lines a session reads are a
 * parameter.
 */
module Runner {
  import opened Wrappers
  import opened RunnerError
  import opened Players
  import Engine

  /** The largest `usize` on a 64-bit target. */
  const UsizeMax: nat := 0xFFFF_FFFF_FFFF_FFFF

  // ---------------------------------------------------------------------
  // Splitting a line on whitespace (`str::split_whitespace`)

  /** `char::is_whitespace`: the code points with the Unicode White_Space property. */
  predicate IsWhitespace(c: char)
  {
    var n := c as int;
    (0x09 <= n <= 0x0D) || n == 0x20 || n == 0x85 || n == 0xA0 || n == 0x1680 ||
    (0x2000 <= n <= 0x200A) || n == 0x2028 || n == 0x2029 || n == 0x202F ||
    n == 0x205F || n == 0x3000
  }

  /** A token: non-empty and free of whitespace. */
  predicate IsWord(t: string)
  {
    |t| > 0 && forall i :: 0 <= i < |t| ==> !IsWhitespace(t[i])
  }

  /** The length of the longest whitespace-free prefix of s. */
  function WordLength(s: string): (n: nat)
    ensures n <= |s|
    ensures forall i :: 0 <= i < n ==> !IsWhitespace(s[i])
    ensures n < |s| ==> IsWhitespace(s[n])
  {
    if s == [] || IsWhitespace(s[0]) then 0 else 1 + WordLength(s[1..])
  }

  /** The maximal whitespace-free pieces of s, in order. */
  function Tokens(s: string): (ts: seq<string>)
    ensures forall i :: 0 <= i < |ts| ==> IsWord(ts[i])
    decreases |s|
  {
    if s == [] then []
    else if IsWhitespace(s[0]) then Tokens(s[1..])
    else
      var n := WordLength(s);
      [s[..n]] + Tokens(s[n..])
  }

  lemma {:induction false} WordLengthBeforeWhitespace(a: string, w: char, b: string)
    requires IsWhitespace(w)
    ensures WordLength(a + [w] + b) == WordLength(a)
  {
    if a != [] && !IsWhitespace(a[0]) {
      assert (a + [w] + b)[1..] == a[1..] + [w] + b;
      WordLengthBeforeWhitespace(a[1..], w, b);
    }
  }

  /** A whitespace character splits a line into two independent halves. */
  lemma {:induction false} TokensSplit(a: string, w: char, b: string)
    requires IsWhitespace(w)
    ensures Tokens(a + [w] + b) == Tokens(a) + Tokens(b)
    decreases |a|
  {
    var s := a + [w] + b;
    if a == [] {
      assert s == [w] + b;
      assert s[1..] == b;
    } else if IsWhitespace(a[0]) {
      assert s[1..] == a[1..] + [w] + b;
      TokensSplit(a[1..], w, b);
    } else {
      var m := WordLength(a);
      WordLengthBeforeWhitespace(a, w, b);
      assert s[..m] == a[..m];
      if m == |a| {
        assert s[m..] == [w] + b;
        assert ([w] + b)[1..] == b;
        assert a[m..] == [];
      } else {
        assert s[m..] == a[m..] + [w] + b;
        TokensSplit(a[m..], w, b);
      }
    }
  }

  /** A token on its own splits into itself. */
  lemma TokensOfWord(t: string)
    requires IsWord(t)
    ensures Tokens(t) == [t]
  {
    assert WordLength(t) == |t|;
    assert t[..|t|] == t;
  }

  /** Leading, trailing and repeated whitespace leave the tokens unchanged. */
  lemma TokensIgnoreExtraWhitespace(a: string, w: char, v: char, b: string)
    requires IsWhitespace(w) && IsWhitespace(v)
    ensures Tokens(a + [w, v] + b) == Tokens(a + [w] + b)
    ensures Tokens([w] + b) == Tokens(b)
    ensures Tokens(a + [w]) == Tokens(a)
  {
    LeadingWhitespace(w, b);
    TrailingWhitespace(a, w);
    RepeatedWhitespace(a, w, v, b);
  }

  lemma LeadingWhitespace(w: char, b: string)
    requires IsWhitespace(w)
    ensures Tokens([w] + b) == Tokens(b)
  {
    TokensSplit([], w, b);
    assert [] + [w] + b == [w] + b;
  }

  lemma TrailingWhitespace(a: string, w: char)
    requires IsWhitespace(w)
    ensures Tokens(a + [w]) == Tokens(a)
  {
    TokensSplit(a, w, []);
    assert a + [w] + [] == a + [w];
  }

  lemma RepeatedWhitespace(a: string, w: char, v: char, b: string)
    requires IsWhitespace(w) && IsWhitespace(v)
    ensures Tokens(a + [w, v] + b) == Tokens(a + [w] + b)
  {
    TokensSplit(a, w, b);
    TokensSplit(a, w, [v] + b);
    LeadingWhitespace(v, b);
    assert a + [w, v] + b == a + [w] + ([v] + b);
  }

  // ---------------------------------------------------------------------
  // Parsing a token as a `usize` (`str::parse::<usize>`)

  predicate IsDigit(c: char)
  {
    '0' <= c <= '9'
  }

  function DigitValue(c: char): (d: nat)
    requires IsDigit(c)
    ensures d < 10
  {
    (c as int) - ('0' as int)
  }

  function DigitChar(d: nat): (c: char)
    requires d < 10
    ensures IsDigit(c) && DigitValue(c) == d
  {
    (('0' as int) + d) as char
  }

  /**
   * Reads digits left to right onto acc, rejecting a non-digit and stopping
   * at the first digit that takes the value past UsizeMax.
   */
  function ScanDigits(ds: string, acc: nat): (r: Result<nat, ParseIntError>)
    requires acc <= UsizeMax
    ensures r.Ok? ==> r.value <= UsizeMax
    ensures r.Err? ==> r.error.kind != EmptyInput
    ensures ds == [] ==> r == Ok(acc)
  {
    if ds == [] then Ok(acc)
    else if !IsDigit(ds[0]) then Err(ParseIntError(InvalidDigit))
    else
      var v := acc * 10 + DigitValue(ds[0]);
      if v > UsizeMax then Err(ParseIntError(PosOverflow))
      else ScanDigits(ds[1..], v)
  }

  /**
   * An empty token is rejected as empty; a lone sign as an invalid digit; one
   * leading '+' is skipped; the rest must be decimal digits whose value fits.
   */
  function ParseUsize(t: string): (r: Result<nat, ParseIntError>)
    ensures r.Ok? ==> r.value <= UsizeMax
    ensures r == Err(ParseIntError(EmptyInput)) <==> t == []
    ensures IsNumeral(Unsigned(t)) ==> r == NumeralResult(Unsigned(t))
  {
    if t == [] then Err(ParseIntError(EmptyInput))
    else if (t[0] == '+' || t[0] == '-') && |t| == 1 then Err(ParseIntError(InvalidDigit))
    else if t[0] == '+' then ScanNumeral(t[1..]); ScanDigits(t[1..], 0)
    else ScanNumeral(t); ScanDigits(t, 0)
  }

  /** A token without its one optional leading '+'. */
  function Unsigned(t: string): string
  {
    if t != [] && t[0] == '+' then t[1..] else t
  }

  predicate AllDigits(ds: string)
  {
    forall i :: 0 <= i < |ds| ==> IsDigit(ds[i])
  }

  /** One or more decimal digits; leading zeros are allowed. */
  predicate IsNumeral(ds: string)
  {
    |ds| > 0 && AllDigits(ds)
  }

  /** The value a string of decimal digits denotes, the last digit being the units. */
  function NumeralValue(ds: string): nat
    requires AllDigits(ds)
  {
    if ds == [] then 0 else NumeralValue(ds[..|ds| - 1]) * 10 + DigitValue(ds[|ds| - 1])
  }

  /** The value of a numeral when it fits in a `usize`, an overflow error otherwise. */
  function NumeralResult(ds: string): Result<nat, ParseIntError>
    requires AllDigits(ds)
  {
    if NumeralValue(ds) <= UsizeMax then Ok(NumeralValue(ds)) else Err(ParseIntError(PosOverflow))
  }

  /** The left-to-right scan of a string of digits computes its value, or reports the overflow. */
  lemma {:induction false} ScanNumeral(ds: string)
    ensures AllDigits(ds) ==> ScanDigits(ds, 0) == NumeralResult(ds)
  {
    if AllDigits(ds) && ds != [] {
      var a, c := ds[..|ds| - 1], ds[|ds| - 1];
      assert AllDigits(a) by {
        forall i | 0 <= i < |a|
          ensures IsDigit(a[i])
        {
          assert a[i] == ds[i];
        }
      }
      ScanNumeral(a);
      ScanDigitsAppend(a, [c], 0);
      assert a + [c] == ds;
      assert [c][1..] == [];
    }
  }

  /** The numeral of n, whatever its size, denotes n. */
  lemma {:induction false} NumeralOfDecimal(n: nat)
    ensures NumeralValue(Decimal(n)) == n
  {
    var s := Decimal(n);
    if n >= 10 {
      NumeralOfDecimal(n / 10);
      assert s[..|s| - 1] == Decimal(n / 10);
    }
  }

  /** The numeral of a number past the `usize` maximum is rejected as an overflow. */
  lemma ParseOverflow(n: nat)
    requires n > UsizeMax
    ensures ParseUsize(Decimal(n)) == Err(ParseIntError(PosOverflow))
    ensures ParseUsize("+" + Decimal(n)) == Err(ParseIntError(PosOverflow))
  {
    NumeralOfDecimal(n);
    assert Unsigned("+" + Decimal(n)) == Decimal(n);
  }

  /** Leading zeros and a leading '+' are accepted: "01" is 1 and "+007" is 7. */
  lemma LeadingZeroExamples()
    ensures ParseUsize("01") == Ok(1)
    ensures ParseUsize("+007") == Ok(7)
  {
    assert IsNumeral("01");
    assert NumeralValue("0") == 0;
    assert "01"[..1] == "0";
    assert Unsigned("+007") == "007";
    assert IsNumeral("007");
    assert "007"[..2] == "00" && "00"[..1] == "0";
  }

  /** Scanning a concatenation scans the second part from where the first stopped. */
  lemma {:induction false} ScanDigitsAppend(a: string, b: string, acc: nat)
    requires acc <= UsizeMax
    ensures ScanDigits(a + b, acc) ==
              match ScanDigits(a, acc)
              case Ok(v) => ScanDigits(b, v)
              case Err(e) => Err(e)
  {
    if a != [] {
      assert (a + b)[0] == a[0];
      assert (a + b)[1..] == a[1..] + b;
      if IsDigit(a[0]) && acc * 10 + DigitValue(a[0]) <= UsizeMax {
        ScanDigitsAppend(a[1..], b, acc * 10 + DigitValue(a[0]));
      }
    } else {
      assert a + b == b;
    }
  }

  /** The decimal numeral of n, most significant digit first, no leading zero. */
  function Decimal(n: nat): (s: string)
    ensures IsNumeral(s)
    ensures |s| > 1 ==> s[0] != '0'
  {
    if n < 10 then [DigitChar(n)] else Decimal(n / 10) + [DigitChar(n % 10)]
  }

  /** Parsing the decimal numeral of any `usize` gives the number back. */
  lemma {:induction false} ParseDecimal(n: nat)
    requires n <= UsizeMax
    ensures ScanDigits(Decimal(n), 0) == Ok(n)
    ensures ParseUsize(Decimal(n)) == Ok(n)
    ensures ParseUsize("+" + Decimal(n)) == Ok(n)
  {
    if n >= 10 {
      ParseDecimal(n / 10);
      ScanDigitsAppend(Decimal(n / 10), [DigitChar(n % 10)], 0);
      assert ScanDigits([DigitChar(n % 10)], n / 10) == ScanDigits([], n) == Ok(n);
    }
    var s := Decimal(n);
    assert ("+" + s)[1..] == s;
    if |s| == 1 {
      assert s[0] != '+' && s[0] != '-';
    }
  }

  /** A parsed token is an optional '+' followed by one or more digits. */
  lemma ParseAcceptsDigitsOnly(t: string)
    requires ParseUsize(t).Ok?
    ensures var ds := if t[0] == '+' then t[1..] else t;
            |ds| > 0 && forall i :: 0 <= i < |ds| ==> IsDigit(ds[i])
  {
    var ds := if t[0] == '+' then t[1..] else t;
    ScanAcceptsDigitsOnly(ds, 0);
  }

  lemma {:induction false} ScanAcceptsDigitsOnly(ds: string, acc: nat)
    requires acc <= UsizeMax && ScanDigits(ds, acc).Ok?
    ensures forall i :: 0 <= i < |ds| ==> IsDigit(ds[i])
  {
    if ds != [] {
      ScanAcceptsDigitsOnly(ds[1..], acc * 10 + DigitValue(ds[0]));
      forall i | 0 <= i < |ds|
        ensures IsDigit(ds[i])
      {
        if i > 0 {
          assert ds[i] == ds[1..][i - 1];
        }
      }
    }
  }

  // ---------------------------------------------------------------------
  // Reading coordinates (`read_coordinates`)

  /** What `read_line` delivered: a line of text, or an I/O failure. */
  datatype ReadLine = Line(text: string) | ReadFailed(error: IoError)

  /**
   * A line of exactly two tokens, each a `usize`, gives the pair (first,
   * second); any other number of tokens is an argument error; a token that
   * does not parse is a parse error, the first token's taking precedence.
   */
  function ReadCoordinates(input: ReadLine): (r: Result<(nat, nat), Error>)
    ensures r.Ok? ==> r.value.0 <= UsizeMax && r.value.1 <= UsizeMax
    ensures input.ReadFailed? <==> r.Err? && r.error.InputError?
  {
    match input
    case ReadFailed(e) => Err(FromIoError(e))
    case Line(text) =>
      var ts := Tokens(text);
      if |ts| != 2 then Err(InvalidArgumentsError)
      else
        match ParseUsize(ts[0])
        case Err(e) => Err(FromParseIntError(e))
        case Ok(x) =>
          match ParseUsize(ts[1])
          case Err(e) => Err(FromParseIntError(e))
          case Ok(y) => Ok((x, y))
  }

  /** How the outcome of reading a line follows from the line's tokens. */
  lemma ReadCoordinatesCases(text: string)
    ensures var r, ts := ReadCoordinates(Line(text)), Tokens(text);
            && (r == Err(InvalidArgumentsError) <==> |ts| != 2)
            && (r.Err? && r.error.ParseError? <==>
                  |ts| == 2 && (ParseUsize(ts[0]).Err? || ParseUsize(ts[1]).Err?))
            && (r.Ok? <==> |ts| == 2 && ParseUsize(ts[0]).Ok? && ParseUsize(ts[1]).Ok?)
            && (r.Ok? ==> Ok(r.value.0) == ParseUsize(ts[0]) && Ok(r.value.1) == ParseUsize(ts[1]))
  {
  }

  /** Writing two `usize`s as decimals, space-separated, reads them back in order. */
  lemma ReadCoordinatesRoundTrip(x: nat, y: nat)
    requires x <= UsizeMax && y <= UsizeMax
    ensures ReadCoordinates(Line(Decimal(x) + " " + Decimal(y) + "\n")) == Ok((x, y))
  {
    DecimalIsWord(x);
    DecimalIsWord(y);
    TwoWordsLine(Decimal(x), Decimal(y));
    ParseDecimal(x);
    ParseDecimal(y);
  }

  /** A decimal numeral is a token: it is non-empty and made of digits only. */
  lemma DecimalIsWord(n: nat)
    requires n <= UsizeMax
    ensures IsWord(Decimal(n))
  {
    ParseDecimal(n);
    ScanAcceptsDigitsOnly(Decimal(n), 0);
  }

  /** Two tokens, a space between them and a line end after them split into those two. */
  lemma TwoWordsLine(t: string, u: string)
    requires IsWord(t) && IsWord(u)
    ensures Tokens(t + " " + u + "\n") == [t, u]
  {
    TokensOfWord(t);
    TokensOfWord(u);
    TrailingWhitespace(u, '\n');
    TokensSplit(t, ' ', u + "\n");
    assert t + [' '] + (u + "\n") == t + " " + u + "\n";
  }

  /** The reading test "1 1". */
  lemma ReadCoordinatesValidExample()
    ensures ReadCoordinates(Line("1 1")) == Ok((1, 1))
  {
    assert IsWord("1");
    TokensOfWord("1");
    TokensSplit("1", ' ', "1");
    assert "1" + [' '] + "1" == "1 1";
    assert ParseUsize("1") == Ok(1);
  }

  /** The reading tests "" and "1 2 3": too few or too many tokens. */
  lemma ReadCoordinatesArgumentExamples()
    ensures ReadCoordinates(Line("")) == Err(InvalidArgumentsError)
    ensures ReadCoordinates(Line("1 2 3")) == Err(InvalidArgumentsError)
  {
    assert Tokens("") == [];
    ThreeWords("1", "2", "3", ' ');
    assert "1" + [' '] + "2" + [' '] + "3" == "1 2 3";
  }

  /** Three tokens separated by single whitespace characters split into exactly those three. */
  lemma ThreeWords(t: string, u: string, v: string, w: char)
    requires IsWord(t) && IsWord(u) && IsWord(v) && IsWhitespace(w)
    ensures Tokens(t + [w] + u + [w] + v) == [t, u, v]
  {
    TokensOfWord(t);
    TokensOfWord(u);
    TokensOfWord(v);
    TokensSplit(u, w, v);
    TokensSplit(t, w, u + [w] + v);
    assert t + [w] + u + [w] + v == t + [w] + (u + [w] + v);
  }

  /** Extra, leading and trailing whitespace do not change what a line reads as. */
  lemma ReadCoordinatesIgnoreWhitespace(a: string, w: char, v: char, b: string)
    requires IsWhitespace(w) && IsWhitespace(v)
    ensures ReadCoordinates(Line(a + [w, v] + b)) == ReadCoordinates(Line(a + [w] + b))
    ensures ReadCoordinates(Line([w] + b)) == ReadCoordinates(Line(b))
    ensures ReadCoordinates(Line(a + [w])) == ReadCoordinates(Line(a))
  {
    TokensIgnoreExtraWhitespace(a, w, v, b);
  }

  // ---------------------------------------------------------------------
  // The session as a value

  /** What the session loop sees of the game: the board, the player to move and the cached outcome. */
  datatype State = State(tiles: Engine.Board, turn: Player, winner: Option<Engine.Winner>)

  /** The game `start_game` creates. */
  function Initial(): State { State(seq(Engine.TileCount, _ => Engine.Empty), P1, None) }

  /** The cached outcome is the board's. */
  predicate Consistent(s: State)
  {
    s.winner == Engine.WinnerOf(s.tiles)
  }

  /**
   * One pass of the loop: a line that does not read as coordinates, or a
   * move onto an off-board or used cell, leaves the game as it was and
   * continues; a legal move is played, and the loop breaks exactly when it
   * left a win or a draw.
   */
  function Step(s: State, input: ReadLine): (State, bool)
  {
    match ReadCoordinates(input)
    case Err(_) => (s, false)
    case Ok((x, y)) =>
      if Engine.InBounds(x, y) && s.tiles[Engine.Index(x, y)] == Engine.Empty then
        var b := s.tiles[Engine.Index(x, y) := Engine.Used(s.turn)];
        (State(b, Opponent(s.turn), Engine.WinnerOf(b)), Engine.WinnerOf(b).Some?)
      else
        (s, false)
  }

  /**
   * The passes over lines[i..]: the final state, whether the loop broke, and
   * how many lines had been read by then.
   */
  function Run(s: State, lines: seq<ReadLine>, i: nat): (r: (State, bool, nat))
    requires i <= |lines|
    ensures i <= r.2 <= |lines|
    ensures r.1 ==> r.2 > i
    ensures !r.1 ==> r.2 == |lines|
    decreases |lines| - i
  {
    if i == |lines| then (s, false, i)
    else
      var next := Step(s, lines[i]);
      if next.1 then (next.0, true, i + 1) else Run(next.0, lines, i + 1)
  }

  /** After one pass over line i, the rest of the session continues from its state, or the session is over. */
  lemma RunAfterStep(s: State, t: State, stop: bool, lines: seq<ReadLine>, i: nat)
    requires i < |lines| && (t, stop) == Step(s, lines[i])
    ensures stop ==> Run(s, lines, i) == (t, true, i + 1)
    ensures !stop ==> Run(s, lines, i) == Run(t, lines, i + 1)
  {
  }

  /** A whole session over the given lines, from a fresh game. */
  function Session(lines: seq<ReadLine>): (State, bool, nat)
  {
    Run(Initial(), lines, 0)
  }

  /** A pass keeps the cached outcome the board's, and keeps the marks balanced. */
  lemma StepKeepsInvariants(s: State, input: ReadLine)
    requires Consistent(s) && Engine.Balanced(s.tiles, s.turn)
    ensures Consistent(Step(s, input).0)
    ensures Engine.Balanced(Step(s, input).0.tiles, Step(s, input).0.turn)
  {
    match ReadCoordinates(input)
    case Err(_) =>
    case Ok((x, y)) =>
      if Engine.InBounds(x, y) && s.tiles[Engine.Index(x, y)] == Engine.Empty {
        Engine.PlaceKeepsBalance(s.tiles, s.turn, Engine.Index(x, y));
      }
  }

  /**
   * From an undecided, consistent, balanced game, the loop breaks exactly
   * when the game ends won or drawn, and the final game is consistent and
   * balanced.
   */
  lemma {:induction false} RunStopsOnOutcome(s: State, lines: seq<ReadLine>, i: nat)
    requires i <= |lines|
    requires s.winner == None && Consistent(s) && Engine.Balanced(s.tiles, s.turn)
    ensures var r := Run(s, lines, i);
            (r.1 <==> r.0.winner.Some?) && Consistent(r.0) && Engine.Balanced(r.0.tiles, r.0.turn)
    decreases |lines| - i
  {
    if i < |lines| {
      var next := Step(s, lines[i]);
      StepKeepsInvariants(s, lines[i]);
      if !next.1 {
        assert next.0.winner == None;
        RunStopsOnOutcome(next.0, lines, i + 1);
      }
    }
  }

  /** The lines after the one that ends the session are never read. */
  lemma {:induction false} LinesAfterStopUnread(s: State, lines: seq<ReadLine>, more: seq<ReadLine>, i: nat)
    requires i <= |lines| && Run(s, lines, i).1
    ensures Run(s, lines + more, i) == Run(s, lines, i)
    decreases |lines| - i
  {
    assert (lines + more)[i] == lines[i];
    var next := Step(s, lines[i]);
    if !next.1 {
      LinesAfterStopUnread(next.0, lines, more, i + 1);
    }
  }

  /**
   * A fresh game is undecided, consistent and balanced, so a session stops
   * exactly when the game has an outcome, ends consistent and balanced, and
   * reads every line unless it stopped.
   */
  lemma SessionStopsOnOutcome(lines: seq<ReadLine>)
    ensures var r := Session(lines);
            (r.1 <==> r.0.winner.Some?) && Consistent(r.0) && Engine.Balanced(r.0.tiles, r.0.turn)
    ensures var r := Session(lines);
            r.2 <= |lines| && (r.1 ==> r.2 > 0) && (!r.1 ==> r.2 == |lines|)
  {
    Engine.EmptyBoardUndecided();
    Engine.CountNone(Initial().tiles, P1);
    Engine.CountNone(Initial().tiles, P2);
    RunStopsOnOutcome(Initial(), lines, 0);
  }

  /** The game object as a value. */
  ghost function StateOf(g: Engine.Game): State
    reads g, g.board
    requires g.Valid()
  {
    State(g.Tiles(), g.turn, g.winner)
  }

  // ---------------------------------------------------------------------
  // The session

  class Runner {
    var game: Engine.Game?

    /** `Runner::new`: no game yet. */
    constructor ()
      ensures game == null
    {
      game := null;
    }

    /**
     * One pass of the loop in `start_game`, without its printing: read the
     * coordinates, play them, and stop only when the move succeeded and
     * left the game won or drawn. Read errors and rejected moves continue.
     */
    method HandleLine(input: ReadLine) returns (stop: bool)
      requires game != null && game.Valid()
      modifies game, game.board
      ensures game.Valid()
      ensures (StateOf(game), stop) == Step(old(StateOf(game)), input)
      // The clauses below follow from the one above; they spell out for
      // callers what a pass does to the game and when it stops.
      ensures ReadCoordinates(input).Err? ==>
                game.Tiles() == old(game.Tiles()) && game.turn == old(game.turn) && game.winner == old(game.winner)
      ensures stop <==>
                match ReadCoordinates(input)
                case Err(_) => false
                case Ok((x, y)) =>
                  Engine.InBounds(x, y) && old(game.board[Engine.Index(x, y)]) == Engine.Empty &&
                  game.winner.Some?
      ensures !stop ==> game.winner == old(game.winner) || game.winner == None
      ensures old(game.Consistent()) ==> game.Consistent()
    {
      match ReadCoordinates(input) {
        case Ok((x, y)) =>
          var r := game.Play(x, y);
          match r {
            case Err(_) =>
              // either engine error is reported and the loop goes on
              stop := false;
            case Ok(_) =>
              match game.winner {
                case None =>
                  stop := false;
                case Some(_) =>
                  // a win or a draw is announced and ends the loop
                  stop := true;
              }
          }
        case Err(_) =>
          stop := false;
      }
    }

    /**
     * The loop of `start_game`: one pass per line until a pass stops the
     * session or the lines run out.
     */
    method PlayLines(lines: seq<ReadLine>) returns (stopped: bool, used: nat)
      requires game != null && game.Valid()
      modifies game, game.board
      ensures game.Valid()
      ensures (StateOf(game), stopped, used) == Run(old(StateOf(game)), lines, 0)
    {
      ghost var start := StateOf(game);
      stopped, used := false, 0;
      while used < |lines| && !stopped
        invariant game.Valid()
        invariant used <= |lines|
        invariant !stopped ==> Run(StateOf(game), lines, used) == Run(start, lines, 0)
        invariant stopped ==> (StateOf(game), true, used) == Run(start, lines, 0)
        decreases |lines| - used
      {
        ghost var before := StateOf(game);
        stopped := HandleLine(lines[used]);
        RunAfterStep(before, StateOf(game), stopped, lines, used);
        used := used + 1;
      }
    }

    /**
     * `start_game` over the given lines: a fresh game, then one pass per
     * line until a pass stops the session or the lines run out. The
     * session stops exactly when the game has an outcome.
     */
    method StartGame(lines: seq<ReadLine>) returns (stopped: bool, used: nat)
      modifies this
      ensures game != null && fresh(game) && fresh(game.board) && game.Consistent()
      ensures used <= |lines|
      ensures stopped <==> game.winner.Some?
      ensures !stopped ==> used == |lines|
      ensures stopped ==> used > 0
      ensures (StateOf(game), stopped, used) == Session(lines)
    {
      game := new Engine.Game();
      assert StateOf(game) == Initial();
      stopped, used := PlayLines(lines);
      SessionStopsOnOutcome(lines);
    }
  }
}
