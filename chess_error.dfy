/// The errors the core throws: the coordinate-move errors of
/// kjchess/ChessError.swift, with the promotion kind that
/// kjchess/Position_after_coordinateMove.swift passes along, and the two
/// FEN errors that kjchess/FEN.swift throws.
module ChessErrors {
  import opened Pieces
  import opened Locations
  import opened Wrappers

  datatype ChessError =
    | InvalidCoordinateMove(move: string)
    | NoMatchingCoordinateMoves(from: Location, to: Location, promotedKind: Option<PieceKind>)
    | FenStringRequiresExactlyEightRanks(fenBoard: string)
    | FenBoardContainsInvalidCharacter(character: char)
}
