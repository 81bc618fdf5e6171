/**
 * The two players (src/game/player.rs) and the turn alternation that both
 * engines apply after a successful move.
 */
module Players {

  datatype Player = P1 | P2

  /** `char::from(&Player)`: the mark a player leaves on the board. */
  function Mark(p: Player): (c: char)
    ensures c == 'X' || c == 'O'
    ensures c == 'X' <==> p == P1
  {
    match p
    case P1 => 'X'
    case P2 => 'O'
  }

  /** Two players leave different marks, so a mark identifies its player. */
  lemma MarkInjective(p: Player, q: Player)
    ensures Mark(p) == Mark(q) <==> p == q
  {
  }

  /** `Display for Player`: exactly the one character of the player's mark. */
  function Show(p: Player): (s: string)
    ensures |s| == 1 && s[0] == Mark(p)
    ensures s == "X" || s == "O"
  {
    [Mark(p)]
  }

  /** The player who moves next (the match in `toggle_turn`). */
  function Opponent(p: Player): (q: Player)
    ensures q != p
  {
    match p
    case P1 => P2
    case P2 => P1
  }

  /** Toggling the turn twice gives the turn back. */
  lemma OpponentInvolution(p: Player)
    ensures Opponent(Opponent(p)) == p
  {
  }
}
