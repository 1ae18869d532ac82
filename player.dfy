/// The side to move: white or black (kjchess/Player.swift).
///
/// The Swift enum also has an `.empty` case, used as a board sentinel in one
/// revision of the board; `symbol` and `opponent` assert it away. Here a
/// square is `Option<Piece>`, so `Player` has the two real players only and
/// the assertion failure becomes unrepresentable.
module Players {

  datatype Player = White | Black

  /// "W" for white and "B" for black.
  function Symbol(p: Player): (s: string)
    ensures |s| == 1
    ensures s == (if p == White then "W" else "B")
  {
    match p
    case White => "W"
    case Black => "B"
  }

  /// The other player.
  function Opponent(p: Player): (q: Player)
    ensures q != p
  {
    match p
    case White => Black
    case Black => White
  }

  /// `opponent` is an involution.
  lemma OpponentInvolution(p: Player)
    ensures Opponent(Opponent(p)) == p
  {
  }

  /// `symbol` tells the players apart.
  lemma SymbolInjective(p: Player, q: Player)
    ensures Symbol(p) == Symbol(q) ==> p == q
  {
  }
}
