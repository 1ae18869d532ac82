/// Parsing coordinate-form move strings such as "e2e4" and "e7e8q"
/// (kjchess/parseCoordinateMove.swift).
module CoordinateMoves {
  import opened Wrappers
  import opened Pieces
  import opened Locations
  import opened Moves

  /// The parsed squares and optional promotion kind.
  datatype CoordinateMove = CoordinateMove(from: Location, to: Location, promoted: Option<PieceKind>)

  /// Four or five characters: two squares, then for five characters a piece
  /// character naming the promotion. Anything else is `None`.
  function ParseCoordinateMove(s: string): (r: Option<CoordinateMove>)
    ensures r.Some? <==>
      (|s| == 4 || |s| == 5)
      && FromCharacters(s[0], s[1]).Some? && FromCharacters(s[2], s[3]).Some?
      && (|s| == 5 ==> FromCharacter(s[4]).Some?)
    ensures r.Some? ==>
      r.value.from == FromCharacters(s[0], s[1]).value
      && r.value.to == FromCharacters(s[2], s[3]).value
      && r.value.promoted == (if |s| == 5 then FromCharacter(s[4]) else None)
  {
    if !(|s| == 4 || |s| == 5) then None
    else
      match (FromCharacters(s[0], s[1]), FromCharacters(s[2], s[3]))
      case (Some(from), Some(to)) =>
        if |s| == 5 then
          match FromCharacter(s[4])
          case Some(promoted) => Some(CoordinateMove(from, to, Some(promoted)))
          case None => None
        else Some(CoordinateMove(from, to, None))
      case _ => None
  }

  /// The coordinate form of every move except resignation parses back to
  /// the move's squares and promotion kind.
  lemma ParseCoordinateForm(m: Move)
    requires !m.Resign?
    ensures ParseCoordinateMove(CoordinateForm(m)) == Some(CoordinateMove(From(m), To(m), PromotedKind(m)))
  {
    var s := CoordinateForm(m);
    ParseSymbol(From(m));
    ParseSymbol(To(m));
    assert s[0..2] == Locations.Symbol(From(m));
    assert s[2..4] == Locations.Symbol(To(m));
    assert [s[0], s[1]] == s[0..2];
    assert [s[2], s[3]] == s[2..4];
    if IsPromotion(m) {
      FromCharacterOfSymbols(PromotedKind(m).value);
    }
  }

  /// The resignation string "0000" is not a coordinate move.
  lemma ResignationDoesNotParse(p: Players.Player)
    ensures ParseCoordinateMove(CoordinateForm(Resign(p))) == None
  {
  }

  /// The test strings.
  lemma ParseCoordinateMoveRejections()
    ensures ParseCoordinateMove("") == None && ParseCoordinateMove("e") == None
    ensures ParseCoordinateMove("e2") == None && ParseCoordinateMove("e2e") == None
  {
  }

  lemma ParseCoordinateMoveExamples()
    ensures ParseCoordinateMove("e2e4") == Some(CoordinateMove(Location(4, 1), Location(4, 3), None))
    ensures ParseCoordinateMove("a1h8") == Some(CoordinateMove(Location(0, 0), Location(7, 7), None))
  {
  }

  lemma ParseCoordinatePromotionExamples()
    ensures ParseCoordinateMove("e7e8q") == Some(CoordinateMove(Location(4, 6), Location(4, 7), Some(Queen)))
    ensures ParseCoordinateMove("d7d8b") == Some(CoordinateMove(Location(3, 6), Location(3, 7), Some(Bishop)))
    ensures ParseCoordinateMove("b2b1n") == Some(CoordinateMove(Location(1, 1), Location(1, 0), Some(Knight)))
    ensures ParseCoordinateMove("a2a1r") == Some(CoordinateMove(Location(0, 1), Location(0, 0), Some(Rook)))
    ensures ParseCoordinateMove("E2E4K") == Some(CoordinateMove(Location(4, 1), Location(4, 3), Some(King)))
  {
  }
}
