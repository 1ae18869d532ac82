/// The 8x8 board (kjchess/Board.swift): 64 squares, each empty or holding
/// a piece, square (file, rank) at index rank * 8 + file.
module Boards {
  import opened Wrappers
  import opened Players
  import opened Pieces
  import opened Locations
  import opened Moves

  /// The contents of the 64 squares.
  type Squares = s: seq<Option<Piece>> | |s| == 64 witness seq(64, _ => None)

  /// Index of a square: rank-major, a1 = 0, b1 = 1, ..., h8 = 63.
  function SquareIndex(l: Location): (i: int)
    ensures 0 <= i < 64 && i / 8 == l.rank && i % 8 == l.file
  {
    l.rank * 8 + l.file
  }

  /// `Location(squareIndex:)`, the inverse of `SquareIndex`.
  function LocationOfIndex(i: int): (l: Location)
    requires 0 <= i < 64
    ensures SquareIndex(l) == i
  {
    Location(i % 8, i / 8)
  }

  lemma SquareIndexInjective(a: Location, b: Location)
    ensures SquareIndex(a) == SquareIndex(b) ==> a == b
  {
  }

  /// The contents of a square.
  function At(b: Squares, l: Location): Option<Piece>
  {
    b[SquareIndex(l)]
  }

  /// `at(file:rank:)` indexes `rank * 8 + file` without checking the two
  /// coordinates separately; only the index must lie on the board.
  function AtFileRank(b: Squares, file: int, rank: int): (r: Option<Piece>)
    requires 0 <= rank * 8 + file < 64
    ensures IsValid(file, rank) ==> r == At(b, Location(file, rank))
    ensures file == 8 && rank < 7 ==> r == At(b, Location(0, rank + 1))
  {
    b[rank * 8 + file]
  }

  predicate IsEmpty(b: Squares, l: Location)
  {
    At(b, l).None?
  }

  const WP: Option<Piece> := Some(Piece(White, Pawn))
  const WN: Option<Piece> := Some(Piece(White, Knight))
  const WB: Option<Piece> := Some(Piece(White, Bishop))
  const WR: Option<Piece> := Some(Piece(White, Rook))
  const WQ: Option<Piece> := Some(Piece(White, Queen))
  const WK: Option<Piece> := Some(Piece(White, King))
  const BP: Option<Piece> := Some(Piece(Black, Pawn))
  const BN: Option<Piece> := Some(Piece(Black, Knight))
  const BB: Option<Piece> := Some(Piece(Black, Bishop))
  const BR: Option<Piece> := Some(Piece(Black, Rook))
  const BQ: Option<Piece> := Some(Piece(Black, Queen))
  const BK: Option<Piece> := Some(Piece(Black, King))
  const xx: Option<Piece> := None

  /// `Board.empty`.
  const EmptyBoard: Squares := seq(64, _ => xx)

  /// `Board.newGame`, rank 1 first.
  const NewGame: Squares :=
    [WR, WN, WB, WQ, WK, WB, WN, WR] +
    [WP, WP, WP, WP, WP, WP, WP, WP] +
    [xx, xx, xx, xx, xx, xx, xx, xx] +
    [xx, xx, xx, xx, xx, xx, xx, xx] +
    [xx, xx, xx, xx, xx, xx, xx, xx] +
    [xx, xx, xx, xx, xx, xx, xx, xx] +
    [BP, BP, BP, BP, BP, BP, BP, BP] +
    [BR, BN, BB, BQ, BK, BB, BN, BR]

  /// The order of the pieces on the first and last ranks, file a first.
  const BackRank: seq<PieceKind> := [Rook, Knight, Bishop, Queen, King, Bishop, Knight, Rook]

  /// The starting layout square by square: White on ranks 1 and 2, Black
  /// on ranks 7 and 8, the back ranks mirroring each other.
  function InitialPiece(l: Location): Option<Piece>
  {
    if l.rank == 0 then Some(Piece(White, BackRank[l.file]))
    else if l.rank == 1 then WP
    else if l.rank == 6 then BP
    else if l.rank == 7 then Some(Piece(Black, BackRank[l.file]))
    else None
  }

  /// `newGame` lays the pieces out rank-major (the kings stand on e1 and
  /// e8), although the comment on the storage arrays describes a
  /// file-major layout.
  lemma NewGameLayout(l: Location)
    ensures At(NewGame, l) == InitialPiece(l)
  {
    NewGameRanks();
    var r: int := l.rank;
    var row := NewGame[8 * r .. 8 * r + 8];
    AtInRank(NewGame, l);
    if r == 0 {
      assert row == NewGame[0..8];
    } else if r == 1 {
      assert row == NewGame[8..16];
    } else if r == 6 {
      assert row == NewGame[48..56];
    } else if r == 7 {
      assert row == NewGame[56..64];
    } else if r == 2 {
      assert row == NewGame[16..24];
    } else if r == 3 {
      assert row == NewGame[24..32];
    } else if r == 4 {
      assert row == NewGame[32..40];
    } else {
      assert row == NewGame[40..48];
    }
  }

  /// A square read from its rank's eight entries.
  lemma AtInRank(b: Squares, l: Location)
    ensures At(b, l) == b[8 * l.rank as int .. 8 * l.rank as int + 8][l.file]
  {
  }

  /// `newGame` rank by rank.
  lemma NewGameRanks()
    ensures NewGame[0..8] == [WR, WN, WB, WQ, WK, WB, WN, WR]
    ensures NewGame[8..16] == [WP, WP, WP, WP, WP, WP, WP, WP]
    ensures NewGame[16..24] == NewGame[24..32] == NewGame[32..40] == NewGame[40..48]
         == [xx, xx, xx, xx, xx, xx, xx, xx]
    ensures NewGame[48..56] == [BP, BP, BP, BP, BP, BP, BP, BP]
    ensures NewGame[56..64] == [BR, BN, BB, BQ, BK, BB, BN, BR]
  {
  }

  /// The board with one square replaced.
  function Set(b: Squares, l: Location, v: Option<Piece>): Squares
  {
    b[SquareIndex(l) := v]
  }

  /// The rank on which a player's king and rooks start.
  function HomeRank(p: Player): Coord
  {
    if p == White then 0 else 7
  }

  /// The square of the pawn an en-passant capture removes: behind the
  /// target square from the capturer's point of view. `None` when that
  /// square is off the board (the Swift initialiser would trap).
  function EnPassantVictim(p: Player, to: Location): (r: Option<Location>)
    ensures r.Some? ==> r.value.file == to.file && r.value.rank != to.rank
    ensures r.Some? ==> r.value.rank == (if p == White then to.rank - 1 else to.rank + 1)
  {
    IfValid(to.file, if p == White then to.rank - 1 else to.rank + 1)
  }

  /// What `apply` needs to run without trapping: the captured pawn of an
  /// en-passant capture is on the board.
  predicate Applicable(m: Move)
  {
    m.EnPassantCapture? ==> EnPassantVictim(m.player, m.to).Some?
  }

  /// `after(_:)` and `apply(_:)`: the board after a move, without checking
  /// that the move is valid.
  function After(b: Squares, m: Move): Squares
    requires Applicable(m)
  {
    match m
    case Move(piece, from, to) => Set(Set(b, from, xx), to, Some(piece))
    case Capture(piece, from, to, _) => Set(Set(b, from, xx), to, Some(piece))
    case Promote(player, from, to, promoted) => Set(Set(b, from, xx), to, Some(Piece(player, promoted)))
    case PromoteCapture(player, from, to, _, promoted) => Set(Set(b, from, xx), to, Some(Piece(player, promoted)))
    case EnPassantCapture(player, from, to) =>
      Set(Set(Set(b, from, xx), EnPassantVictim(player, to).value, xx), to, Some(Piece(player, Pawn)))
    case CastleKingside(player) =>
      var r := HomeRank(player);
      Set(Set(Set(Set(b, Location(4, r), xx), Location(7, r), xx), Location(5, r), Some(Piece(player, Rook))),
          Location(6, r), Some(Piece(player, King)))
    case CastleQueenside(player) =>
      var r := HomeRank(player);
      Set(Set(Set(Set(b, Location(4, r), xx), Location(0, r), xx), Location(3, r), Some(Piece(player, Rook))),
          Location(2, r), Some(Piece(player, King)))
    case Resign(_) => b
  }

  /// `unapply(_:)`: puts back what `apply` removed, from the move alone.
  function Unapplied(b: Squares, m: Move): Squares
    requires Applicable(m)
  {
    match m
    case Move(piece, from, to) => Set(Set(b, from, Some(piece)), to, xx)
    case Capture(piece, from, to, captured) =>
      Set(Set(b, from, Some(piece)), to, Some(Piece(Opponent(piece.player), captured)))
    case Promote(player, from, to, _) => Set(Set(b, from, Some(Piece(player, Pawn))), to, xx)
    case PromoteCapture(player, from, to, captured, _) =>
      Set(Set(b, from, Some(Piece(player, Pawn))), to, Some(Piece(Opponent(player), captured)))
    case EnPassantCapture(player, from, to) =>
      Set(Set(Set(b, from, Some(Piece(player, Pawn))), EnPassantVictim(player, to).value,
              Some(Piece(Opponent(player), Pawn))), to, xx)
    case CastleKingside(player) =>
      var r := HomeRank(player);
      Set(Set(Set(Set(b, Location(4, r), Some(Piece(player, King))), Location(7, r), Some(Piece(player, Rook))),
              Location(5, r), xx), Location(6, r), xx)
    case CastleQueenside(player) =>
      var r := HomeRank(player);
      Set(Set(Set(Set(b, Location(4, r), Some(Piece(player, King))), Location(0, r), Some(Piece(player, Rook))),
              Location(3, r), xx), Location(2, r), xx)
    case Resign(_) => b
  }

  /// The squares `apply` writes.
  function Touched(m: Move): set<Location>
    requires Applicable(m)
  {
    match m
    case EnPassantCapture(player, from, to) => {from, to, EnPassantVictim(player, to).value}
    case CastleKingside(player) =>
      var r := HomeRank(player);
      {Location(4, r), Location(5, r), Location(6, r), Location(7, r)}
    case CastleQueenside(player) =>
      var r := HomeRank(player);
      {Location(0, r), Location(2, r), Location(3, r), Location(4, r)}
    case Resign(_) => {}
    case _ => {From(m), To(m)}
  }

  /// The board a move is made on matches what the move records, so that
  /// `unapply` can reconstruct it: the mover's piece is on `from`, `to` is
  /// empty or holds the recorded captured piece of the opponent, the
  /// en-passant victim is an opposing pawn, and castling finds king and rook
  /// at home with the squares the king and rook land on empty.
  predicate Consistent(b: Squares, m: Move)
  {
    Applicable(m) &&
    match m
    case Move(piece, from, to) => from != to && At(b, from) == Some(piece) && At(b, to) == xx
    case Capture(piece, from, to, captured) =>
      from != to && At(b, from) == Some(piece) && At(b, to) == Some(Piece(Opponent(piece.player), captured))
    case Promote(player, from, to, _) =>
      from != to && At(b, from) == Some(Piece(player, Pawn)) && At(b, to) == xx
    case PromoteCapture(player, from, to, captured, _) =>
      from != to && At(b, from) == Some(Piece(player, Pawn)) && At(b, to) == Some(Piece(Opponent(player), captured))
    case EnPassantCapture(player, from, to) =>
      var victim := EnPassantVictim(player, to).value;
      from != to && from != victim && At(b, from) == Some(Piece(player, Pawn))
      && At(b, victim) == Some(Piece(Opponent(player), Pawn)) && At(b, to) == xx
    case CastleKingside(player) =>
      var r := HomeRank(player);
      At(b, Location(4, r)) == Some(Piece(player, King)) && At(b, Location(7, r)) == Some(Piece(player, Rook))
      && At(b, Location(5, r)) == xx && At(b, Location(6, r)) == xx
    case CastleQueenside(player) =>
      var r := HomeRank(player);
      At(b, Location(4, r)) == Some(Piece(player, King)) && At(b, Location(0, r)) == Some(Piece(player, Rook))
      && At(b, Location(3, r)) == xx && At(b, Location(2, r)) == xx
    case Resign(_) => true
  }

  /// Reading a square after writing one: the written value on that
  /// square, the old contents everywhere else.
  lemma AtSet(b: Squares, k: Location, v: Option<Piece>, l: Location)
    ensures At(Set(b, k, v), l) == if k == l then v else At(b, l)
  {
    SquareIndexInjective(k, l);
  }

  lemma AtSetAll()
    ensures forall b: Squares, k, v, l :: At(Set(b, k, v), l) == if k == l then v else At(b, l)
  {
    forall b: Squares, k, v, l ensures At(Set(b, k, v), l) == if k == l then v else At(b, l) {
      AtSet(b, k, v, l);
    }
  }

  /// Two boards that agree on every square are equal.
  lemma BoardExtensionality(b1: Squares, b2: Squares)
    requires forall l :: At(b1, l) == At(b2, l)
    ensures b1 == b2
  {
    forall i | 0 <= i < 64 ensures b1[i] == b2[i] {
      assert At(b1, LocationOfIndex(i)) == At(b2, LocationOfIndex(i));
    }
  }

  /// `unapply(m)` right after `apply(m)` restores the board exactly, for
  /// every kind of move made on a consistent board.
  lemma UnapplyAfterApply(b: Squares, m: Move)
    requires Consistent(b, m)
    ensures Unapplied(After(b, m), m) == b
  {
    AtSetAll();
    var u := Unapplied(After(b, m), m);
    forall l ensures At(u, l) == At(b, l) {
      if m.CastleKingside? || m.CastleQueenside? {
        CastleRestores(b, m, l);
      }
    }
    BoardExtensionality(u, b);
  }

  lemma CastleRestores(b: Squares, m: Move, l: Location)
    requires Consistent(b, m) && (m.CastleKingside? || m.CastleQueenside?)
    ensures At(Unapplied(After(b, m), m), l) == At(b, l)
  {
    var r := HomeRank(m.player);
    var f := if m.CastleKingside? then 7 else 0;
    var rookTo := if m.CastleKingside? then 5 else 3;
    var kingTo := if m.CastleKingside? then 6 else 2;
    var a := Set(Set(Set(Set(b, Location(4, r), xx), Location(f, r), xx), Location(rookTo, r), Some(Piece(m.player, Rook))),
                 Location(kingTo, r), Some(Piece(m.player, King)));
    assert After(b, m) == a;
    var u := Set(Set(Set(Set(a, Location(4, r), Some(Piece(m.player, King))), Location(f, r), Some(Piece(m.player, Rook))),
                 Location(rookTo, r), xx), Location(kingTo, r), xx);
    assert Unapplied(a, m) == u;
    AtSet(a, Location(4, r), Some(Piece(m.player, King)), l);
    var u1 := Set(a, Location(4, r), Some(Piece(m.player, King)));
    AtSet(u1, Location(f, r), Some(Piece(m.player, Rook)), l);
    var u2 := Set(u1, Location(f, r), Some(Piece(m.player, Rook)));
    AtSet(u2, Location(rookTo, r), xx, l);
    var u3 := Set(u2, Location(rookTo, r), xx);
    AtSet(u3, Location(kingTo, r), xx, l);
    var a1 := Set(b, Location(4, r), xx);
    AtSet(b, Location(4, r), xx, l);
    var a2 := Set(a1, Location(f, r), xx);
    AtSet(a1, Location(f, r), xx, l);
    var a3 := Set(a2, Location(rookTo, r), Some(Piece(m.player, Rook)));
    AtSet(a2, Location(rookTo, r), Some(Piece(m.player, Rook)), l);
    AtSet(a3, Location(kingTo, r), Some(Piece(m.player, King)), l);
  }

  /// `apply` writes nothing outside the squares of the move (so
  /// resignation changes nothing at all).
  lemma ApplyFrame(b: Squares, m: Move, l: Location)
    requires Applicable(m) && l !in Touched(m)
    ensures At(After(b, m), l) == At(b, l)
  {
    match m
    case CastleKingside(p) =>
      var r := HomeRank(p);
      var a1 := Set(b, Location(4, r), xx);
      var a2 := Set(a1, Location(7, r), xx);
      var a3 := Set(a2, Location(5, r), Some(Piece(p, Rook)));
      AtSet(b, Location(4, r), xx, l);
      AtSet(a1, Location(7, r), xx, l);
      AtSet(a2, Location(5, r), Some(Piece(p, Rook)), l);
      AtSet(a3, Location(6, r), Some(Piece(p, King)), l);
    case CastleQueenside(p) =>
      var r := HomeRank(p);
      var a1 := Set(b, Location(4, r), xx);
      var a2 := Set(a1, Location(0, r), xx);
      var a3 := Set(a2, Location(3, r), Some(Piece(p, Rook)));
      AtSet(b, Location(4, r), xx, l);
      AtSet(a1, Location(0, r), xx, l);
      AtSet(a2, Location(3, r), Some(Piece(p, Rook)), l);
      AtSet(a3, Location(2, r), Some(Piece(p, King)), l);
    case _ => AtSetAll();
  }

  /// `unapply` likewise writes only the squares of the move.
  lemma UnapplyFrame(b: Squares, m: Move, l: Location)
    requires Applicable(m) && l !in Touched(m)
    ensures At(Unapplied(b, m), l) == At(b, l)
  {
    match m
    case CastleKingside(p) =>
      var r := HomeRank(p);
      var a1 := Set(b, Location(4, r), Some(Piece(p, King)));
      var a2 := Set(a1, Location(7, r), Some(Piece(p, Rook)));
      var a3 := Set(a2, Location(5, r), xx);
      AtSet(b, Location(4, r), Some(Piece(p, King)), l);
      AtSet(a1, Location(7, r), Some(Piece(p, Rook)), l);
      AtSet(a2, Location(5, r), xx, l);
      AtSet(a3, Location(6, r), xx, l);
    case CastleQueenside(p) =>
      var r := HomeRank(p);
      var a1 := Set(b, Location(4, r), Some(Piece(p, King)));
      var a2 := Set(a1, Location(0, r), Some(Piece(p, Rook)));
      var a3 := Set(a2, Location(3, r), xx);
      AtSet(b, Location(4, r), Some(Piece(p, King)), l);
      AtSet(a1, Location(0, r), Some(Piece(p, Rook)), l);
      AtSet(a2, Location(3, r), xx, l);
      AtSet(a3, Location(2, r), xx, l);
    case _ => AtSetAll();
  }

  /// The piece that stands on the destination after a move: the promoted
  /// piece for promotions, otherwise the moving piece.
  function Arriving(m: Move): (pc: Piece)
    ensures pc.player == Mover(m)
  {
    match PromotedPiece(m)
    case Some(p) => p
    case None => MovingPiece(m)
  }

  /// What `apply` writes: the arriving piece on `to`, an empty `from`
  /// (different from `to`), and an empty square where the en-passant
  /// victim stood.
  lemma ApplyEffect(b: Squares, m: Move)
    requires Applicable(m) && !m.Resign?
    ensures At(After(b, m), To(m)) == Some(Arriving(m))
    ensures From(m) != To(m) ==> At(After(b, m), From(m)) == xx
    ensures m.EnPassantCapture? ==> At(After(b, m), EnPassantVictim(m.player, m.to).value) == xx
  {
    SquareIndexInjective(From(m), To(m));
    if m.EnPassantCapture? {
      SquareIndexInjective(EnPassantVictim(m.player, m.to).value, To(m));
      SquareIndexInjective(EnPassantVictim(m.player, m.to).value, From(m));
    }
    if m.CastleKingside? || m.CastleQueenside? {
      var r := HomeRank(m.player);
      forall f: Coord, g: Coord ensures SquareIndex(Location(f, r)) == SquareIndex(Location(g, r)) ==> f == g {
        SquareIndexInjective(Location(f, r), Location(g, r));
      }
    }
  }

  /// `with(...)`: the pairs are written in order, so a later pair for the
  /// same square wins.
  function WithAll(b: Squares, pairs: seq<(Option<Piece>, Location)>): Squares
    decreases |pairs|
  {
    if |pairs| == 0 then b
    else Set(WithAll(b, pairs[..|pairs| - 1]), pairs[|pairs| - 1].1, pairs[|pairs| - 1].0)
  }

  /// `with` leaves every square it is not given unchanged.
  lemma {:induction false} WithAllFrame(b: Squares, pairs: seq<(Option<Piece>, Location)>, l: Location)
    requires forall k :: 0 <= k < |pairs| ==> pairs[k].1 != l
    ensures At(WithAll(b, pairs), l) == At(b, l)
    decreases |pairs|
  {
    if |pairs| > 0 {
      WithAllFrame(b, pairs[..|pairs| - 1], l);
      SquareIndexInjective(l, pairs[|pairs| - 1].1);
    }
  }

  /// The last pair given for a square decides its contents.
  lemma {:induction false} WithAllLastWins(b: Squares, pairs: seq<(Option<Piece>, Location)>, k: int)
    requires 0 <= k < |pairs|
    requires forall j :: k < j < |pairs| ==> pairs[j].1 != pairs[k].1
    ensures At(WithAll(b, pairs), pairs[k].1) == pairs[k].0
    decreases |pairs|
  {
    if k < |pairs| - 1 {
      WithAllLastWins(b, pairs[..|pairs| - 1], k);
      SquareIndexInjective(pairs[k].1, pairs[|pairs| - 1].1);
    }
  }

  /// The pieces of a player on the squares with index `i` and above, in
  /// increasing index order.
  function PiecesFrom(b: Squares, p: Player, i: int): seq<(Piece, Location)>
    requires 0 <= i <= 64
    decreases 64 - i
  {
    if i == 64 then []
    else if b[i].Some? && b[i].value.player == p then [(b[i].value, LocationOfIndex(i))] + PiecesFrom(b, p, i + 1)
    else PiecesFrom(b, p, i + 1)
  }

  /// `pieces(player:)`.
  function PiecesOf(b: Squares, p: Player): seq<(Piece, Location)>
  {
    PiecesFrom(b, p, 0)
  }

  /// The entries from index `i` on are exactly the player's pieces on
  /// those squares, each with its square, in strictly increasing index order.
  lemma {:induction false} PiecesFromExact(b: Squares, p: Player, i: int)
    requires 0 <= i <= 64
    ensures forall e :: e in PiecesFrom(b, p, i) <==>
      i <= SquareIndex(e.1) && At(b, e.1) == Some(e.0) && e.0.player == p
    ensures forall j, k :: 0 <= j < k < |PiecesFrom(b, p, i)| ==>
      SquareIndex(PiecesFrom(b, p, i)[j].1) < SquareIndex(PiecesFrom(b, p, i)[k].1)
    decreases 64 - i
  {
    if i < 64 {
      PiecesFromExact(b, p, i + 1);
      forall e: (Piece, Location) ensures SquareIndex(e.1) == i ==> e.1 == LocationOfIndex(i) {
        SquareIndexInjective(e.1, LocationOfIndex(i));
      }
    }
  }

  /// `pieces(player:)` returns exactly the squares the player owns, in
  /// increasing index order.
  lemma PiecesOfExact(b: Squares, p: Player)
    ensures forall e :: e in PiecesOf(b, p) <==> At(b, e.1) == Some(e.0) && e.0.player == p
    ensures forall j, k :: 0 <= j < k < |PiecesOf(b, p)| ==>
      SquareIndex(PiecesOf(b, p)[j].1) < SquareIndex(PiecesOf(b, p)[k].1)
  {
    PiecesFromExact(b, p, 0);
  }

  /// The membership half of `PiecesOfExact`.
  lemma PiecesOfMembers(b: Squares, p: Player)
    ensures forall e :: e in PiecesOf(b, p) <==> At(b, e.1) == Some(e.0) && e.0.player == p
  {
    PiecesOfExact(b, p);
  }

  /// Squares `i` to `j` all belong to the player: each adds one entry.
  lemma {:induction false} PiecesFromOwnedRun(b: Squares, p: Player, i: int, j: int)
    requires 0 <= i <= j <= 64
    requires forall k :: i <= k < j ==> b[k].Some? && b[k].value.player == p
    ensures |PiecesFrom(b, p, i)| == (j - i) + |PiecesFrom(b, p, j)|
    decreases j - i
  {
    if i < j {
      PiecesFromOwnedRun(b, p, i + 1, j);
    }
  }

  /// Squares `i` to `j` hold none of the player's pieces: they add nothing.
  lemma {:induction false} PiecesFromUnownedRun(b: Squares, p: Player, i: int, j: int)
    requires 0 <= i <= j <= 64
    requires forall k :: i <= k < j ==> !(b[k].Some? && b[k].value.player == p)
    ensures PiecesFrom(b, p, i) == PiecesFrom(b, p, j)
    decreases j - i
  {
    if i < j {
      PiecesFromUnownedRun(b, p, i + 1, j);
    }
  }

  /// Each side has 16 pieces at the start.
  lemma NewGamePieceCount()
    ensures |PiecesOf(NewGame, White)| == 16 && |PiecesOf(NewGame, Black)| == 16
  {
    forall l ensures At(NewGame, l) == InitialPiece(l) {
      NewGameLayout(l);
    }
    InitialLayoutPieceCount(NewGame);
  }

  lemma InitialLayoutPieceCount(b: Squares)
    requires forall l :: At(b, l) == InitialPiece(l)
    ensures |PiecesOf(b, White)| == 16 && |PiecesOf(b, Black)| == 16
  {
    InitialLayoutIndexes(b);
    IndexLayoutPieceCount(b);
  }

  lemma IndexLayoutPieceCount(b: Squares)
    requires forall k :: 0 <= k < 16 ==> b[k].Some? && b[k].value.player == White
    requires forall k :: 16 <= k < 48 ==> b[k].None?
    requires forall k :: 48 <= k < 64 ==> b[k].Some? && b[k].value.player == Black
    ensures |PiecesOf(b, White)| == 16 && |PiecesOf(b, Black)| == 16
  {
    WhiteRunCount(b);
    BlackRunCount(b);
  }

  lemma WhiteRunCount(b: Squares)
    requires forall k :: 0 <= k < 16 ==> b[k].Some? && b[k].value.player == White
    requires forall k :: 16 <= k < 48 ==> b[k].None?
    requires forall k :: 48 <= k < 64 ==> b[k].Some? && b[k].value.player == Black
    ensures |PiecesOf(b, White)| == 16
  {
    RunCount(b, White, 0, 16);
  }

  lemma BlackRunCount(b: Squares)
    requires forall k :: 0 <= k < 16 ==> b[k].Some? && b[k].value.player == White
    requires forall k :: 16 <= k < 48 ==> b[k].None?
    requires forall k :: 48 <= k < 64 ==> b[k].Some? && b[k].value.player == Black
    ensures |PiecesOf(b, Black)| == 16
  {
    RunCount(b, Black, 48, 64);
  }

  /// The starting layout by index: White owns 0..15, Black 48..63.
  lemma InitialLayoutIndexes(b: Squares)
    requires forall l :: At(b, l) == InitialPiece(l)
    ensures forall k :: 0 <= k < 16 ==> b[k].Some? && b[k].value.player == White
    ensures forall k :: 16 <= k < 48 ==> b[k].None?
    ensures forall k :: 48 <= k < 64 ==> b[k].Some? && b[k].value.player == Black
  {
    forall k | 0 <= k < 64
      ensures (k < 16 ==> b[k].Some? && b[k].value.player == White)
      ensures (16 <= k < 48 ==> b[k].None?)
      ensures (48 <= k ==> b[k].Some? && b[k].value.player == Black)
    {
      var l := LocationOfIndex(k);
      assert At(b, l) == b[k];
    }
  }

  /// When the player owns exactly the squares with index in `[i, j)`, it
  /// has `j - i` pieces.
  lemma RunCount(b: Squares, p: Player, i: int, j: int)
    requires 0 <= i <= j <= 64
    requires forall k :: 0 <= k < i ==> !(b[k].Some? && b[k].value.player == p)
    requires forall k :: i <= k < j ==> b[k].Some? && b[k].value.player == p
    requires forall k :: j <= k < 64 ==> !(b[k].Some? && b[k].value.player == p)
    ensures |PiecesOf(b, p)| == j - i
  {
    PiecesFromUnownedRun(b, p, 0, i);
    PiecesFromOwnedRun(b, p, i, j);
    PiecesFromUnownedRun(b, p, j, 64);
  }

  /// The first king of the player at index `i` or above.
  function KingFrom(b: Squares, p: Player, i: int): Option<Location>
    requires 0 <= i <= 64
    decreases 64 - i
  {
    if i == 64 then None
    else if b[i] == Some(Piece(p, King)) then Some(LocationOfIndex(i))
    else KingFrom(b, p, i + 1)
  }

  /// `kingLocation(player:)`.
  function KingLocationOf(b: Squares, p: Player): Option<Location>
  {
    KingFrom(b, p, 0)
  }

  lemma {:induction false} KingFromFirst(b: Squares, p: Player, i: int)
    requires 0 <= i <= 64
    ensures KingFrom(b, p, i).Some? ==>
      var l := KingFrom(b, p, i).value;
      i <= SquareIndex(l) && At(b, l) == Some(Piece(p, King))
      && forall k :: i <= k < SquareIndex(l) ==> b[k] != Some(Piece(p, King))
    ensures KingFrom(b, p, i).None? ==> forall k :: i <= k < 64 ==> b[k] != Some(Piece(p, King))
    decreases 64 - i
  {
    if i < 64 {
      KingFromFirst(b, p, i + 1);
    }
  }

  /// `kingLocation` is the lowest-index square holding the player's king,
  /// or `None` when the player has no king.
  lemma KingLocationFirst(b: Squares, p: Player)
    ensures KingLocationOf(b, p).Some? ==>
      var l := KingLocationOf(b, p).value;
      At(b, l) == Some(Piece(p, King))
      && forall l' :: SquareIndex(l') < SquareIndex(l) ==> At(b, l') != Some(Piece(p, King))
    ensures KingLocationOf(b, p).None? <==> forall l :: At(b, l) != Some(Piece(p, King))
  {
    KingFromFirst(b, p, 0);
    if KingLocationOf(b, p).None? {
      forall l ensures At(b, l) != Some(Piece(p, King)) {
        var k := SquareIndex(l);
      }
    } else {
      var l := KingLocationOf(b, p).value;
      assert At(b, l) == Some(Piece(p, King));
    }
  }

  /// The board as an object whose squares are updated in place.
  class Board {
    const squares: array<Option<Piece>>

    predicate Valid()
    {
      squares.Length == 64
    }

    function Contents(): Squares
      reads squares
      requires Valid()
    {
      squares[..]
    }

    /// `Board(squares)`: the Swift initialiser asserts 64 squares, which
    /// the `Squares` type carries.
    constructor (s: Squares)
      ensures Valid() && Contents() == s && fresh(squares)
    {
      var a := new Option<Piece>[64];
      forall i | 0 <= i < 64 {
        a[i] := s[i];
      }
      squares := a;
    }

    /// One square overwritten in place.
    method Put(l: Location, v: Option<Piece>)
      requires Valid()
      modifies squares
      ensures Valid() && Contents() == Set(old(Contents()), l, v)
    {
      squares[SquareIndex(l)] := v;
    }

    /// `apply(_:)`.
    method Apply(m: Move)
      requires Valid() && Applicable(m)
      modifies squares
      ensures Valid() && Contents() == After(old(Contents()), m)
    {
      match m
      case Move(piece, from, to) =>
        Put(from, xx);
        Put(to, Some(piece));
      case Capture(piece, from, to, _) =>
        Put(from, xx);
        Put(to, Some(piece));
      case Promote(player, from, to, promoted) =>
        Put(from, xx);
        Put(to, Some(Piece(player, promoted)));
      case PromoteCapture(player, from, to, _, promoted) =>
        Put(from, xx);
        Put(to, Some(Piece(player, promoted)));
      case EnPassantCapture(player, from, to) =>
        var victim := EnPassantVictim(player, to).value;
        Put(from, xx);
        Put(victim, xx);
        Put(to, Some(Piece(player, Pawn)));
      case CastleKingside(player) =>
        var r := HomeRank(player);
        Put(Location(4, r), xx);
        Put(Location(7, r), xx);
        Put(Location(5, r), Some(Piece(player, Rook)));
        Put(Location(6, r), Some(Piece(player, King)));
      case CastleQueenside(player) =>
        var r := HomeRank(player);
        Put(Location(4, r), xx);
        Put(Location(0, r), xx);
        Put(Location(3, r), Some(Piece(player, Rook)));
        Put(Location(2, r), Some(Piece(player, King)));
      case Resign(_) =>
    }

    /// `unapply(_:)`.
    method Unapply(m: Move)
      requires Valid() && Applicable(m)
      modifies squares
      ensures Valid() && Contents() == Unapplied(old(Contents()), m)
    {
      match m
      case Move(piece, from, to) =>
        Put(from, Some(piece));
        Put(to, xx);
      case Capture(piece, from, to, captured) =>
        Put(from, Some(piece));
        Put(to, Some(Piece(Opponent(piece.player), captured)));
      case Promote(player, from, to, _) =>
        Put(from, Some(Piece(player, Pawn)));
        Put(to, xx);
      case PromoteCapture(player, from, to, captured, _) =>
        Put(from, Some(Piece(player, Pawn)));
        Put(to, Some(Piece(Opponent(player), captured)));
      case EnPassantCapture(player, from, to) =>
        var victim := EnPassantVictim(player, to).value;
        Put(from, Some(Piece(player, Pawn)));
        Put(victim, Some(Piece(Opponent(player), Pawn)));
        Put(to, xx);
      case CastleKingside(player) =>
        var r := HomeRank(player);
        Put(Location(4, r), Some(Piece(player, King)));
        Put(Location(7, r), Some(Piece(player, Rook)));
        Put(Location(5, r), xx);
        Put(Location(6, r), xx);
      case CastleQueenside(player) =>
        var r := HomeRank(player);
        Put(Location(4, r), Some(Piece(player, King)));
        Put(Location(0, r), Some(Piece(player, Rook)));
        Put(Location(3, r), xx);
        Put(Location(2, r), xx);
      case Resign(_) =>
    }

    /// `with(...)`: a new board, this one's squares overwritten by the
    /// pairs in order.
    method With(pairs: seq<(Option<Piece>, Location)>) returns (nb: Board)
      requires Valid()
      ensures nb.Valid() && fresh(nb.squares) && nb.Contents() == WithAll(Contents(), pairs)
    {
      nb := new Board(Contents());
      var i := 0;
      while i < |pairs|
        invariant 0 <= i <= |pairs|
        invariant nb.Valid() && fresh(nb.squares)
        invariant nb.Contents() == WithAll(Contents(), pairs[..i])
      {
        assert pairs[..i + 1][..i] == pairs[..i];
        nb.squares[SquareIndex(pairs[i].1)] := pairs[i].0;
        i := i + 1;
      }
      assert pairs[..i] == pairs;
    }

    /// `pieces(player:)`: scans the squares in index order.
    method Pieces(p: Player) returns (result: seq<(Piece, Location)>)
      requires Valid()
      ensures result == PiecesOf(Contents(), p)
    {
      result := [];
      var i := 0;
      while i < 64
        invariant 0 <= i <= 64
        invariant result + PiecesFrom(Contents(), p, i) == PiecesOf(Contents(), p)
      {
        if squares[i].Some? && squares[i].value.player == p {
          result := result + [(squares[i].value, LocationOfIndex(i))];
        }
        i := i + 1;
      }
    }

    /// `kingLocation(player:)`: the first king found, scanning in index
    /// order.
    method KingLocation(p: Player) returns (l: Option<Location>)
      requires Valid()
      ensures l == KingLocationOf(Contents(), p)
    {
      var i := 0;
      while i < 64
        invariant 0 <= i <= 64
        invariant KingFrom(Contents(), p, i) == KingLocationOf(Contents(), p)
      {
        if squares[i] == Some(Piece(p, King)) {
          return Some(LocationOfIndex(i));
        }
        i := i + 1;
      }
      return None;
    }

    /// Swift's `==` on boards: square-by-square comparison with an early
    /// exit.
    method Equals(other: Board) returns (eq: bool)
      requires Valid() && other.Valid()
      ensures eq <==> Contents() == other.Contents()
    {
      var i := 0;
      while i < 64
        invariant 0 <= i <= 64
        invariant squares[..i] == other.squares[..i]
      {
        if squares[i] != other.squares[i] {
          return false;
        }
        assert squares[..i + 1] == squares[..i] + [squares[i]];
        assert other.squares[..i + 1] == other.squares[..i] + [other.squares[i]];
        i := i + 1;
      }
      assert squares[..] == squares[..64];
      assert other.squares[..] == other.squares[..64];
      return true;
    }
  }
}
