# Tic-tac-toe engine, modelled in Dafny

This project models the core of a console tic-tac-toe game written in Rust:

- the board engine of `src/game/game.rs`. It keeps a 3x3 board as a fixed array of nine tiles in row-major order (index `y*3+x`), the player to move and a cached outcome. `play` validates a move, writes the mark, passes the turn and recomputes the outcome. `get_winner` scans the eight lines in a fixed order. `Display` renders the board as text.
- the `Player` enum and its `'X'`/`'O'` marks (`src/game/player.rs`).
- the older engine of `src/game.rs`, which has no outcome, a looser bounds check and a one-line rendering.
- the session runner's line parser and its stop/continue rule (`src/game/runner/mod.rs`), and the runner's error type (`src/game/runner/error.rs`).

Files and modules:

- `wrappers.dfy` (`Wrappers`): `Option` and `Result`.
- `players.dfy` (`Players`): the player enum, its mark, and `Opponent`, the turn toggle both engines share.
- `engine.dfy` (`Engine`): tiles, outcome, errors and the board as a value, covering the eight lines, `WinnerOf` and `Render`. `WinnerOf` tests the eight lines in the scan order of `get_winner` and takes the first owned one. Also the class `Game` over an `array<Tile>` of length 9, whose methods `PutTile`, `Play`, `ToggleTurn`, `GetWinner` and `Fmt` follow the Rust methods statement by statement. `GetWinner` and `Fmt` keep the source's loops and are proved equal to the pure `WinnerOf` and `Render`. The facts about the outcome and the rendering are proved as lemmas about those functions.
- `legacy.dfy` (`Legacy`): the older engine. Its `Tile`, `Player` and `Error` enums are declared exactly like the newer ones, so the model reuses those types.
- `runner_error.dfy` (`RunnerError`): the runner's error enum, its payload-ignoring equality and the two conversions.
- `runner.dfy` (`Runner`): `split_whitespace`, `str::parse::<usize>`, `read_coordinates` and the class `Runner`. The input lines are a parameter, not a stream. A session is also defined as a value: `Step` is one pass of the `start_game` loop over a `State` (board, turn, cached outcome), `Run` and `Session` apply it line by line until the first pass that stops; `HandleLine`, `PlayLines` and `StartGame` are proved to do exactly that to the `Game` object.

Three facts about the code that shape the model:

- A rendered row is 10 characters (`"   |   |  "`): the last cell's character closes the row, with no trailing space after it.
- The outcome is cached in the `winner` field and recomputed after each successful move. It is not recomputed on demand.
- Only the newer engine rejects every coordinate of 3 or more. The older engine rejects only coordinates above 3.

## Model

| member | source | states |
|---|---|---|
| `Players.Mark` | src/game/player.rs:19-26 | P1 shows as 'X' and P2 as 'O', and no player shows as anything else |
| `Players.MarkInjective` | src/game/player.rs:21-24 | two players have the same mark only if they are the same player |
| `Players.Show` | src/game/player.rs:13-17 | a player displays as exactly one character, its mark ("X" or "O") |
| `Players.Opponent` | src/game/game.rs:69-74 | toggling the turn always gives the other player |
| `Players.OpponentInvolution` | src/game/game.rs:69-74 | toggling the turn twice gives the original player back |
| `Engine.Index` | src/game/game.rs:11-19 | no ensures of its own: the row-major index y*3+x; `IndexBijective` and `IndexCovers` state that it is a bijection between the on-board cells and the nine tiles |
| `Engine.IndexBijective` | src/game/game.rs:10-19 | on the board, y*3+x is below 9 and distinct coordinates give distinct indices; x and y are recovered by % 3 and / 3 |
| `Engine.IndexCovers` | src/game/game.rs:10-19 | every index below 9 is the index of an on-board cell |
| `Engine.ScanLine` | src/game/game.rs:91-127 | every line the scan tests consists of three tile indices below 9 |
| `Engine.ScanOrder` | src/game/game.rs:91-127 | the k-th line scanned is row k/2 (even k < 6), column k/2 (odd k < 6), then the main diagonal, then the anti-diagonal |
| `Engine.ScanAt` | src/game/game.rs:93-98 | at line k the scan reports the player of the first tile when that tile is Used and equal to the other two, and otherwise moves on to line k + 1 |
| `Engine.LineHasOneOwner` | src/game/game.rs:94-98 | a line cannot be won by both players |
| `Engine.LineOwner` | src/game/game.rs:93-98 | no ensures of its own: the test of one line (first tile Used, the other two equal to it); `LineOwnerSpec` states that it names p exactly when all three tiles are Used(p) |
| `Engine.LineOwnerSpec` | src/game/game.rs:94-98 | the test of one line reports a player exactly when the line's three tiles all carry that player's mark, and reports nothing exactly when the line is not won |
| `Engine.FirstOwnerSound` | src/game/game.rs:91-127 | the scan in order reports a player only at a line that player owns, with no owned line earlier in the order |
| `Engine.FirstOwnerComplete` | src/game/game.rs:91-127 | the first owned line in scan order is the one reported |
| `Engine.FirstOwnerNone` | src/game/game.rs:91-127 | the scan reports nothing exactly when no line from that point on is owned |
| `Engine.UndecidedIsNoWin` | src/game/game.rs:91-127 | the line tests of the first m lines all report nothing exactly when none of those lines is won |
| `Engine.WinnerOf` | src/game/game.rs:90-137 | no ensures of its own: the outcome `get_winner` computes; `WinnerOfSpec` characterises it by the first won line, then Empty tiles, then a draw, and `Engine.Game.GetWinner` is proved equal to it |
| `Engine.WinnerOfSpec` | src/game/game.rs:90-137 | the outcome is Won(p) iff p owns some line and no earlier line is won; None iff no line is won and a tile is Empty; Nobody iff no line is won and every tile is used |
| `Engine.WinnerHasLine` | src/game/game.rs:93-127 | a won outcome rests on a line whose three tiles all carry the winner's mark, so a mixed or partly Empty line never wins |
| `Engine.EmptyBoardUndecided` | src/game/game.rs:238 | the empty board has no outcome yet |
| `Engine.DrawExample` | src/game/game.rs:308-312 | the `equality` test's full board, with no line won, is a draw |
| `Engine.AntiDiagonalExample` | src/game/game.rs:302-306 | the `winner_on_last_diagonal` board, with P2 on (2,0), (1,1) and (0,2), is won by P2 |
| `Engine.TileChar` | src/game/game.rs:152-155 | a tile shows as ' ' exactly when it is Empty, and otherwise as its player's mark |
| `Engine.TileCharInjective` | src/game/game.rs:152-155 | different tiles show as different characters |
| `Engine.RowText` | src/game/game.rs:147-156 | a row is 10 characters, with cell x at column 4x+1, bars at columns 3 and 7 and spaces elsewhere |
| `Engine.RowPrefixComplete` | src/game/game.rs:147-156 | building a row cell by cell, with " \|" before every cell after the first, gives the 10-character row |
| `Engine.Render` | src/game/game.rs:140-164 | no ensures of its own: the text `Display for Game` writes; `RenderLayout` gives its layout character by character, `RenderInjective` shows it determines the board, and `Engine.Game.Fmt` is proved equal to it |
| `Engine.RenderLayout` | src/game/game.rs:140-164 | the rendering is 56 characters: the rows at 0-9, 23-32 and 46-55, the separators at 11-21 and 34-44, newlines at 10, 22, 33 and 45 and none at the end; cell (x, y) sits at 23y+4x+1 |
| `Engine.RenderInjective` | src/game/game.rs:140-164 | two boards with the same rendering are equal |
| `Engine.RenderExamples` | src/game/game.rs:402-427 | the empty board and the board with X at (0,0) and (1,0) and O at (1,1) render as the test's joined lines |
| `Engine.CountAfterPlace` | src/game/game.rs:85 | writing p over an Empty tile adds one p mark and leaves the other player's count alone |
| `Engine.PlaceKeepsBalance` | src/game/game.rs:61-67 | a successful move keeps the mark counts balanced: equal when P1 is to move, one more X when P2 is to move |
| `Engine.Game.constructor` | src/game/game.rs:53-59 | a new game has nine Empty tiles, P1 to move and no outcome; its cached outcome agrees with its board |
| `Engine.Game.ToggleTurn` | src/game/game.rs:69-74 | the turn becomes the other player |
| `Engine.Game.PutTile` | src/game/game.rs:76-88 | off-board coordinates give InvalidCoordinates; otherwise a used tile gives TileAlreadyUsed; on either error the board is unchanged; otherwise exactly tile y*3+x is written |
| `Engine.Game.Play` | src/game/game.rs:61-67 | coordinates are checked before occupancy; on either error board, turn and outcome are unchanged; on success exactly tile y*3+x gets the old turn's mark, the turn flips, the cached outcome is the new board's, used tiles stay as they were, and the mark balance is kept |
| `Engine.Game.GetWinner` | src/game/game.rs:90-137 | the loop scan returns exactly WinnerOf of the board |
| `Engine.Game.Fmt` | src/game/game.rs:140-164 | the row-building loops write exactly Render of the board |
| `Legacy.Rejects` | src/game.rs:66 | no ensures of its own: the `>` bounds check as written; `AdmittedOffBoard` states exactly which off-board coordinates it lets through |
| `Legacy.AdmittedOffBoard` | src/game.rs:66 | the `>` check lets through exactly the off-board coordinates with x = 3 (y at most 3) or y = 3 (x at most 3) |
| `Legacy.OffByOneWitness` | src/game.rs:64-68 | (3, 0) passes the check and lands on cell (0, 1); (3, 2) passes the check and indexes past the nine tiles |
| `Legacy.Render` | src/game.rs:78-107 | no ensures of its own: the older single-line rendering; `Legacy.RenderLayout` and `NoNewlineInRow` give its layout, and `Legacy.Game.Fmt` is proved equal to it |
| `Legacy.RenderLayout` | src/game.rs:78-107 | the older rendering is 52 characters on one line, with row 0, the bare separator, row 1, the separator and row 2, and no newline anywhere |
| `Legacy.NoNewlineInRow` | src/game.rs:87-101 | a rendered row holds no newline |
| `Legacy.Game.constructor` | src/game.rs:42-47 | a new game has nine Empty tiles and P1 to move |
| `Legacy.Game.ToggleTurn` | src/game.rs:56-61 | the turn becomes the other player |
| `Legacy.Game.PutTile` | src/game.rs:63-75 | coordinates above 3 give InvalidCoordinates; otherwise a used tile y*3+x gives TileAlreadyUsed; on either error the board is unchanged; otherwise exactly tile y*3+x is written |
| `Legacy.Game.Play` | src/game.rs:49-54 | on either error board and turn are unchanged; on success exactly tile y*3+x gets the old turn's mark and the turn flips |
| `Legacy.Game.Fmt` | src/game.rs:78-107 | the row-building loops write exactly the older one-line rendering |
| `RunnerError.FromIoError` | src/game/runner/error.rs:15-19 | an I/O error converts to InputError carrying the I/O error's text |
| `RunnerError.FromParseIntError` | src/game/runner/error.rs:21-25 | a parse error converts to ParseError carrying the parse error's text |
| `RunnerError.Equal` | src/game/runner/error.rs:27-46 | no ensures of its own: `PartialEq::eq` on the three variants; `EqualIffSameVariant`, `EqualIgnoresMessage` and `EqualIsEquivalence` characterise it |
| `RunnerError.EqualIffSameVariant` | src/game/runner/error.rs:27-46 | two errors are equal exactly when they are the same variant |
| `RunnerError.EqualIgnoresMessage` | src/game/runner/error.rs:27-46 | errors of one variant are equal whatever their messages; a ParseError never equals an InputError |
| `RunnerError.EqualIsEquivalence` | src/game/runner/error.rs:27-46 | the equality is reflexive, symmetric and transitive |
| `RunnerError.FromIoErrorIsInputError` | src/game/runner/error.rs:63-67 | any converted I/O error equals InputError of any text and no other variant |
| `RunnerError.FromParseIntErrorIsParseError` | src/game/runner/error.rs:70-74 | any converted parse error equals ParseError of any text and no other variant |
| `Runner.IsWhitespace` | src/game/runner/mod.rs:80 | no ensures of its own: the code points with the Unicode White_Space property that `split_whitespace` splits on; `Tokens`, `TokensSplit` and `TokensIgnoreExtraWhitespace` state how a line splits on them |
| `Runner.Tokens` | src/game/runner/mod.rs:80 | splitting on whitespace yields only non-empty, whitespace-free tokens |
| `Runner.TokensSplit` | src/game/runner/mod.rs:80 | a whitespace character splits a line into independent halves: the tokens of a+w+b are those of a followed by those of b |
| `Runner.TokensOfWord` | src/game/runner/mod.rs:80 | a whitespace-free, non-empty string is one token |
| `Runner.TokensIgnoreExtraWhitespace` | src/game/runner/mod.rs:80 | doubled, leading and trailing whitespace leave the tokens unchanged |
| `Runner.ThreeWords` | src/game/runner/mod.rs:80 | three tokens separated by single whitespace characters split into exactly those three, in order |
| `Runner.TwoWordsLine` | src/game/runner/mod.rs:80 | two tokens with a space between them and a line end after them split into exactly those two, in order |
| `Runner.ScanDigits` | src/game/runner/mod.rs:82 | the digit scan only yields values up to the usize maximum, and never reports an empty input |
| `Runner.ScanNumeral` | src/game/runner/mod.rs:82 | scanning a string of digits from zero gives its decimal value when that fits in a usize, and PosOverflow otherwise |
| `Runner.ParseUsize` | src/game/runner/mod.rs:82 | parsing yields only values up to the usize maximum; it reports an empty input exactly for the empty token; a token that is one or more digits, after one optional '+', parses to its decimal value (leading zeros allowed) or to PosOverflow when that value exceeds the usize maximum |
| `Runner.NumeralOfDecimal` | src/game/runner/mod.rs:82 | the decimal numeral written for any n denotes n |
| `Runner.ParseOverflow` | src/game/runner/mod.rs:82 | the numeral of any number above the usize maximum, with or without '+', is rejected with PosOverflow |
| `Runner.LeadingZeroExamples` | src/game/runner/mod.rs:82 | "01" parses as 1 and "+007" as 7 |
| `Runner.ParseDecimal` | src/game/runner/mod.rs:82 | the decimal numeral of any usize, with or without a leading '+', parses back to that number |
| `Runner.ParseAcceptsDigitsOnly` | src/game/runner/mod.rs:82 | a token that parses is an optional '+' followed by one or more decimal digits |
| `Runner.ReadCoordinates` | src/game/runner/mod.rs:73-85 | a successful read gives two usize values; a failed read, and only a failed read, gives InputError |
| `Runner.ReadCoordinatesCases` | src/game/runner/mod.rs:80-84 | InvalidArgumentsError iff the line does not have exactly two tokens; ParseError iff there are two and one fails to parse; otherwise Ok of the two parsed values, first token as x |
| `Runner.ReadCoordinatesRoundTrip` | src/game/runner/mod.rs:73-85 | a line "x y\n" written with two usize decimals reads back as (x, y) |
| `Runner.ReadCoordinatesValidExample` | src/game/runner/mod.rs:113 | "1 1" reads as (1, 1) |
| `Runner.ReadCoordinatesArgumentExamples` | src/game/runner/mod.rs:114-115 | "" and "1 2 3" read as InvalidArgumentsError |
| `Runner.ReadCoordinatesIgnoreWhitespace` | src/game/runner/mod.rs:80 | doubled, leading and trailing whitespace leave the outcome of reading a line unchanged |
| `Runner.Runner.constructor` | src/game/runner/mod.rs:17-19 | a new runner holds no game |
| `Runner.Step` | src/game/runner/mod.rs:29-59 | no ensures of its own: one pass of the loop (a read error or a rejected move changes nothing and continues; a legal move is played and the loop breaks exactly on a win or a draw); `StepKeepsInvariants` and `Runner.Runner.HandleLine` are stated against it |
| `Runner.Run` | src/game/runner/mod.rs:28-60 | passes over lines from i on read at most the remaining lines, at least one more when the loop broke, and all of them when it did not |
| `Runner.Session` | src/game/runner/mod.rs:21-61 | no ensures of its own: the whole loop from a fresh game; `SessionStopsOnOutcome` and `LinesAfterStopUnread` characterise it, and `Runner.Runner.StartGame` is proved equal to it |
| `Runner.StepKeepsInvariants` | src/game/runner/mod.rs:30-58 | one pass keeps the cached outcome equal to the board's and keeps the X/O marks balanced |
| `Runner.RunStopsOnOutcome` | src/game/runner/mod.rs:28-60 | from an undecided, consistent, balanced game the loop breaks exactly when the game ends won or drawn, and ends consistent and balanced |
| `Runner.LinesAfterStopUnread` | src/game/runner/mod.rs:40-49 | once a pass breaks the loop, lines after it are never read: appending more lines changes nothing |
| `Runner.SessionStopsOnOutcome` | src/game/runner/mod.rs:21-61 | a session from a fresh game stops exactly when the game has an outcome, reads every line unless it stopped, and ends with a consistent cached outcome and balanced marks |
| `Runner.Runner.HandleLine` | src/game/runner/mod.rs:29-59 | the new board, turn and outcome and the stop flag are exactly one `Step` from the old ones: a read or parse error or a rejected move changes nothing and continues; a legal move writes the old turn's mark at y*3+x, flips the turn, caches the new board's outcome, and stops exactly when that outcome is a win or a draw |
| `Runner.Runner.PlayLines` | src/game/runner/mod.rs:28-60 | the loop leaves the game, the stop flag and the count of lines read exactly as `Run` from the game it started with |
| `Runner.Runner.StartGame` | src/game/runner/mod.rs:21-61 | the final game, stop flag and line count are exactly `Session` of the lines from a fresh game; so the session stops exactly when the game has an outcome, otherwise consumes all lines, and the cached outcome stays consistent |

## Findings

| source | as written | input that shows it | evidently intended | confidence | as-written member | corrected member |
|---|---|---|---|---|---|---|
| src/game.rs:66 | `x > BOARD_WIDTH \|\| y > BOARD_WIDTH` lets a coordinate equal to 3 through | (3, 0) passes and writes tile 3, which is cell (0, 1); (3, 2) passes and indexes tile 9 of 9, a panic | `>=`, as in src/game/game.rs:79 | high (off-by-one against the newer engine and the 0..3 board), not executed | `Legacy.OffByOneWitness` | `Engine.Game.PutTile` |

## Left out

- Console output: every `println!` in `start_game` and `display_info`, and `src/main.rs`. `src/main.rs` calls a `display()` method that neither engine defines.
- Reading lines from a `BufRead`: each read is a `ReadLine` value, either the line's text or an I/O failure. At end of input `read_line` yields an empty line, which reads as InvalidArgumentsError, so the Rust loop never ends. `Runner.Runner.StartGame` instead stops when the given lines run out.
- `Runner.Runner.HandleLine`: requires a game. `start_game` always sets one before its loop, so the source's `if let Some(game)` never takes its other branch.
- The exact message strings of I/O errors: an `IoError` carries its text as an opaque string. Equality ignores payloads anyway.
- `Runner.ScanDigits`: its own contract gives only the bound and the error kinds, because it scans onto an accumulator; its value for a scan from zero is stated by `Runner.ScanNumeral`.
- `Runner.ParseUsize`: assumes a 64-bit `usize`. It follows the standard library's algorithm: an empty token, a lone sign, a leading '+', then a left-to-right digit scan that reports overflow at the first digit that overflows. The parse error texts are the standard library's messages.
- `Runner.IsWhitespace`: uses the Unicode White_Space code points that `char::is_whitespace` tests. It is a transcription, not a link to the Unicode tables.
- Machine-integer overflow of `y * 3 + x`: in both engines the index is computed before the bounds check, so a large `x` or `y` read by the runner (for instance (usize::MAX - 1, 1)) would overflow a `usize` in the Rust code. Coordinates here are unbounded naturals, so that case is not modelled.
- `Legacy.Game.Play` and `Legacy.Game.PutTile`: require `Legacy.IndexInRange`. The coordinates it excludes (x and y at most 3 with y*3+x at least 9) make the Rust code panic; the Findings row exhibits them.
- `fmt::Formatter` write failures (the `?` on each write): rendering is total.
- Moves after a win or a draw: neither engine rejects them. The model keeps that permissiveness, and `Engine.Game.Play` simply recomputes the outcome.
