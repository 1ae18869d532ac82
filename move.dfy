/// Chess moves as a tagged union (kjchess/Move.swift).
module Moves {
  import opened Wrappers
  import opened Players
  import opened Pieces
  import opened Locations

  /// One case per kind of move; the Swift case `.move` is `Move` here.
  datatype Move =
    | Move(piece: Piece, from: Location, to: Location)
    | Capture(piece: Piece, from: Location, to: Location, captured: PieceKind)
    | Promote(player: Player, from: Location, to: Location, promoted: PieceKind)
    | PromoteCapture(player: Player, from: Location, to: Location, captured: PieceKind, promoted: PieceKind)
    | EnPassantCapture(player: Player, from: Location, to: Location)
    | CastleKingside(player: Player)
    | CastleQueenside(player: Player)
    | Resign(player: Player)

  /// The king's home square: e1 for White, e8 for Black.
  function KingHome(p: Player): Location
  {
    if p == White then Location(4, 0) else Location(4, 7)
  }

  /// The player who makes the move.
  function Mover(m: Move): (p: Player)
    ensures (m.Move? || m.Capture?) ==> p == m.piece.player
    ensures !(m.Move? || m.Capture?) ==> p == m.player
  {
    match m
    case Move(piece, _, _) => piece.player
    case Capture(piece, _, _, _) => piece.player
    case Promote(player, _, _, _) => player
    case PromoteCapture(player, _, _, _, _) => player
    case EnPassantCapture(player, _, _) => player
    case CastleKingside(player) => player
    case CastleQueenside(player) => player
    case Resign(player) => player
  }

  /// The piece that moves: a pawn for promotions and en passant, the king
  /// for castling and resignation.
  function MovingPiece(m: Move): (pc: Piece)
    ensures pc.player == Mover(m)
    ensures (m.Promote? || m.PromoteCapture? || m.EnPassantCapture?) ==> pc.kind == Pawn
    ensures (m.CastleKingside? || m.CastleQueenside? || m.Resign?) ==> pc.kind == King
    ensures (m.Move? || m.Capture?) ==> pc == m.piece
  {
    match m
    case Move(piece, _, _) => piece
    case Capture(piece, _, _, _) => piece
    case Promote(player, _, _, _) => Piece(player, Pawn)
    case PromoteCapture(player, _, _, _, _) => Piece(player, Pawn)
    case EnPassantCapture(player, _, _) => Piece(player, Pawn)
    case CastleKingside(player) => Piece(player, King)
    case CastleQueenside(player) => Piece(player, King)
    case Resign(player) => Piece(player, King)
  }

  /// Where the piece starts; the king's home square for castling and
  /// resignation.
  function From(m: Move): (l: Location)
    ensures (m.CastleKingside? || m.CastleQueenside? || m.Resign?) ==> l == KingHome(m.player)
  {
    match m
    case Move(_, from, _) => from
    case Capture(_, from, _, _) => from
    case Promote(_, from, _, _) => from
    case PromoteCapture(_, from, _, _, _) => from
    case EnPassantCapture(_, from, _) => from
    case CastleKingside(player) => KingHome(player)
    case CastleQueenside(player) => KingHome(player)
    case Resign(player) => KingHome(player)
  }

  /// Where the piece ends; for castling the king's destination, for
  /// resignation the king's home square.
  function To(m: Move): Location
  {
    match m
    case Move(_, _, to) => to
    case Capture(_, _, to, _) => to
    case Promote(_, _, to, _) => to
    case PromoteCapture(_, _, to, _, _) => to
    case EnPassantCapture(_, _, to) => to
    case CastleKingside(player) => if player == White then Location(6, 0) else Location(6, 7)
    case CastleQueenside(player) => if player == White then Location(2, 0) else Location(2, 7)
    case Resign(player) => KingHome(player)
  }

  /// The squares castling and resignation use.
  lemma SpecialMoveSquares(p: Player)
    ensures From(CastleKingside(p)) == From(CastleQueenside(p)) == From(Resign(p)) == To(Resign(p))
    ensures From(Resign(p)) == (if p == White then Location(4, 0) else Location(4, 7))
    ensures To(CastleKingside(p)) == Location(6, From(Resign(p)).rank)
    ensures To(CastleQueenside(p)) == Location(2, From(Resign(p)).rank)
  {
  }

  predicate IsCastle(m: Move) { m.CastleKingside? || m.CastleQueenside? }

  predicate IsResignation(m: Move) { m.Resign? }

  predicate IsEnPassant(m: Move) { m.EnPassantCapture? }

  predicate IsCapture(m: Move)
  {
    m.Capture? || m.PromoteCapture? || m.EnPassantCapture?
  }

  /// The kind of the captured piece; a pawn for en passant.
  function CapturedKind(m: Move): (k: Option<PieceKind>)
    ensures k.Some? <==> IsCapture(m)
    ensures m.EnPassantCapture? ==> k == Some(Pawn)
  {
    match m
    case Capture(_, _, _, captured) => Some(captured)
    case PromoteCapture(_, _, _, captured, _) => Some(captured)
    case EnPassantCapture(_, _, _) => Some(Pawn)
    case _ => None
  }

  /// The captured piece; it always belongs to the mover's opponent.
  function CapturedPiece(m: Move): (pc: Option<Piece>)
    ensures pc.Some? <==> IsCapture(m)
    ensures pc.Some? ==> pc.value.player == Opponent(Mover(m)) && Some(pc.value.kind) == CapturedKind(m)
  {
    match CapturedKind(m)
    case Some(kind) => Some(Piece(Opponent(Mover(m)), kind))
    case None => None
  }

  predicate IsPromotion(m: Move) { m.Promote? || m.PromoteCapture? }

  /// The kind a pawn is promoted to.
  function PromotedKind(m: Move): (k: Option<PieceKind>)
    ensures k.Some? <==> IsPromotion(m)
  {
    match m
    case Promote(_, _, _, promoted) => Some(promoted)
    case PromoteCapture(_, _, _, _, promoted) => Some(promoted)
    case _ => None
  }

  /// The promoted piece; it belongs to the mover.
  function PromotedPiece(m: Move): (pc: Option<Piece>)
    ensures pc.Some? <==> IsPromotion(m)
    ensures pc.Some? ==> pc.value.player == Mover(m) && Some(pc.value.kind) == PromotedKind(m)
  {
    match PromotedKind(m)
    case Some(kind) => Some(Piece(Mover(m), kind))
    case None => None
  }

  /// `matches(from:to:)`.
  predicate Matches(m: Move, from: Location, to: Location)
  {
    from == From(m) && to == To(m)
  }

  /// `matches(piece:from:to:)`.
  predicate MatchesPiece(m: Move, piece: Piece, from: Location, to: Location)
  {
    piece == MovingPiece(m) && Matches(m, from, to)
  }

  /// `matches(piece:from:to:isCapture:)`.
  predicate MatchesCapture(m: Move, piece: Piece, from: Location, to: Location, isCapture: bool)
  {
    MatchesPiece(m, piece, from, to) && isCapture == IsCapture(m)
  }

  /// `matches(kind:from:to:)`.
  predicate MatchesKind(m: Move, kind: PieceKind, from: Location, to: Location)
  {
    kind == MovingPiece(m).kind && Matches(m, from, to)
  }

  /// How the four `matches` overloads relate: the capture flag and the
  /// piece only narrow a match, the kind test is the piece test with the
  /// mover's colour, and every move matches its own description.
  lemma MatchesRefine(m: Move, piece: Piece, kind: PieceKind, from: Location, to: Location, isCapture: bool)
    ensures MatchesCapture(m, piece, from, to, isCapture) ==> MatchesPiece(m, piece, from, to)
    ensures MatchesPiece(m, piece, from, to) ==> MatchesKind(m, piece.kind, from, to) && Matches(m, from, to)
    ensures MatchesPiece(m, piece, from, to) <==> MatchesCapture(m, piece, from, to, IsCapture(m))
    ensures MatchesKind(m, kind, from, to) <==> MatchesPiece(m, Piece(Mover(m), kind), from, to)
    ensures MatchesCapture(m, MovingPiece(m), From(m), To(m), IsCapture(m))
  {
  }

  /// Coordinate (long-algebraic) form of the UCI protocol: from-square,
  /// to-square, and the lower-case promotion letter if any; "0000" for
  /// resignation.
  function CoordinateForm(m: Move): (s: string)
    ensures |s| == if IsPromotion(m) then 5 else 4
    ensures m.Resign? ==> s == "0000"
    ensures !m.Resign? ==> s[..2] == Locations.Symbol(From(m)) && s[2..4] == Locations.Symbol(To(m))
    ensures IsPromotion(m) ==> s[4] == KindLowercaseSymbol(PromotedKind(m).value)
  {
    match m
    case Move(_, from, to) => Locations.Symbol(from) + Locations.Symbol(to)
    case Capture(_, from, to, _) => Locations.Symbol(from) + Locations.Symbol(to)
    case Promote(_, from, to, promoted) => Locations.Symbol(from) + Locations.Symbol(to) + [KindLowercaseSymbol(promoted)]
    case PromoteCapture(_, from, to, _, promoted) => Locations.Symbol(from) + Locations.Symbol(to) + [KindLowercaseSymbol(promoted)]
    case EnPassantCapture(_, from, to) => Locations.Symbol(from) + Locations.Symbol(to)
    case CastleKingside(player) => if player == White then "e1g1" else "e8g8"
    case CastleQueenside(player) => if player == White then "e1c1" else "e8c8"
    case Resign(_) => "0000"
  }

  /// The castling strings and the tests' examples.
  lemma CoordinateFormExamples()
    ensures CoordinateForm(CastleKingside(White)) == "e1g1" && CoordinateForm(CastleKingside(Black)) == "e8g8"
    ensures CoordinateForm(CastleQueenside(White)) == "e1c1" && CoordinateForm(CastleQueenside(Black)) == "e8c8"
    ensures CoordinateForm(Move(Piece(White, Pawn), Location(4, 1), Location(4, 3))) == "e2e4"
    ensures CoordinateForm(Promote(White, Location(4, 6), Location(4, 7), Queen)) == "e7e8q"
  {
  }

  /// Swift's `==` on `Move`: same case and equal fields.
  function MoveEquals(l: Move, r: Move): (eq: bool)
    ensures eq <==> l == r
  {
    match (l, r)
    case (Move(l0, l1, l2), Move(r0, r1, r2)) => l0 == r0 && l1 == r1 && l2 == r2
    case (Capture(l0, l1, l2, l3), Capture(r0, r1, r2, r3)) => l0 == r0 && l1 == r1 && l2 == r2 && l3 == r3
    case (Promote(l0, l1, l2, l3), Promote(r0, r1, r2, r3)) => l0 == r0 && l1 == r1 && l2 == r2 && l3 == r3
    case (PromoteCapture(l0, l1, l2, l3, l4), PromoteCapture(r0, r1, r2, r3, r4)) =>
      l0 == r0 && l1 == r1 && l2 == r2 && l3 == r3 && l4 == r4
    case (EnPassantCapture(l0, l1, l2), EnPassantCapture(r0, r1, r2)) => l0 == r0 && l1 == r1 && l2 == r2
    case (CastleKingside(l0), CastleKingside(r0)) => l0 == r0
    case (CastleQueenside(l0), CastleQueenside(r0)) => l0 == r0
    case (Resign(l0), Resign(r0)) => l0 == r0
    case _ => false
  }

  /// `hashValue` is `(from.hashValue << 8) | to.hashValue`; the to-hash is
  /// below 64, so this is `from * 256 + to`.
  function HashValue(m: Move): (h: int)
    ensures 0 <= h < 64 * 256
  {
    Locations.HashValue(From(m)) * 256 + Locations.HashValue(To(m))
  }

  /// Equal moves hash equally, and the hash determines the move's squares.
  lemma HashValueConsistent(m1: Move, m2: Move)
    ensures MoveEquals(m1, m2) ==> HashValue(m1) == HashValue(m2)
    ensures HashValue(m1) == HashValue(m2) ==> From(m1) == From(m2) && To(m1) == To(m2)
  {
    if HashValue(m1) == HashValue(m2) {
      var f1, f2 := Locations.HashValue(From(m1)), Locations.HashValue(From(m2));
      var t1, t2 := Locations.HashValue(To(m1)), Locations.HashValue(To(m2));
      assert f1 == f2 && t1 == t2;
      HashValueInjective(From(m1), From(m2));
      HashValueInjective(To(m1), To(m2));
    }
  }
}
