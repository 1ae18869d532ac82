# kjchess core in Dafny

A verified model of the rule logic of kjchess, a small chess engine written
in Swift, and of the option parser of its command-line tool. One Dafny
module stands for each source file of the core:

- `Players`, `Pieces`, `Locations`, `Moves`, `Castling`: the value types,
  with their letter tables, the algebraic square names ("e4"), the move
  projections and the coordinate form of a move ("e2e4", "e7e8q").
- `Boards`: the 64-square board, square `rank * 8 + file`. The pure
  functions `After`, `Unapplied`, `With`, `PiecesOf` and `KingLocationOf`
  specify it, and the class `Boards.Board`, over an `array`, does the same
  work in place with `Apply`, `Unapply`, `With`, `Pieces` and `KingLocation`.
  The central property is exact undo: unapplying any applied move restores
  the board.
- `Positions`: a board, the side to move and the move history. It also keeps
  the four castling rights and the en-passant target that move generation
  reads.
- `MoveGeneration`, `Attacks`, `Legality`: the pseudo-legal generators
  (pawns, knights, sliders, king and castling), the attack detector, and the
  legality filter exactly as the code computes it. Each generator loop is a
  method proved equal to a recursive specification function, and soundness
  lemmas are proved about that function.
- `OpeningMoves`: the starting position worked through the generator and
  the legality filter. Each pawn has its two pushes, each knight its two
  jumps, and the back-rank pieces nothing. No such move exposes the king on
  e1, so the new game has exactly the 20 legal moves its test lists.
- `Fen`: the piece-placement field of FEN. The model covers writing it, with
  the cascade of run-length replacements, and reading it back with its two
  errors. The round trip is proved.
- `CoordinateMoves`, `CoordinateMoveLookup`: parsing "e7e8q", finding the
  legal move it names, and playing a list of such moves.
- `Evaluation`: material plus piece-square tables, in whole hundredths of
  a pawn. Black's tables are White's mirrored, so swapping colours and
  mirroring a board negates its score, and the starting position scores 0.
- `Search`: `capturesFirst` ordering, alpha-beta `minimaxSearch` on a
  position that is restored after every move, and the root of `bestMove`.
  The alpha-beta score is proved equal to plain minimax within any window
  and exactly equal to it with the full window.
- `ArrayUtils`: `appending`, `prepending`, `appendRepeating`, the in-place
  `shuffle` and `randomPick`.
- `CommandLine`: the recursive option parser of
  `kjchess-cli/CommandLineParseResult.swift`, with its long options, short
  letter groups and error cases. It also covers the option lookups and the
  help strings.
- `Separators`: `components(separatedBy:)` and `joined(separator:)` for a
  one-character separator, shared by the FEN ranks ('/') and the
  "name=value" options ('=').
- `Wrappers` holds `Option` and `Result`. `ChessErrors` holds the errors the
  core throws.

Scores are integers: `Search.Infinity` (10^9) stands for `Double.infinity`
and lies above any score the evaluation can give. Random numbers are
nondeterministic choices (`shuffle`) or a parameter (`randomPick`), and
the contracts hold for every choice.

## Model

| member | source | states |
|---|---|---|
| Players.Symbol | kjchess/Player.swift:14-22 | the symbol of a player is the one letter "W" for White and "B" for Black |
| Players.Opponent | kjchess/Player.swift:24-32 | the opponent of a player is the other player |
| Players.OpponentInvolution | kjchess/Player.swift:24-32 | taking the opponent twice gives back the player |
| Players.SymbolInjective | kjchess/Player.swift:14-22 | different players have different symbols |
| Pieces.PromotionKindsExact | kjchess/Piece.swift:19-21 | the promotion kinds are four, and a kind is among them exactly when it is neither pawn nor king |
| Pieces.FromCharacterOfSymbols | kjchess/Piece.swift:23-60 | reading back either the upper-case or the lower-case letter of a kind gives that kind |
| Pieces.FromCharacterDomain | kjchess/Piece.swift:50-60 | a character names a kind exactly when it is one of the 24 listed letters and figurines; every other character gives nil |
| Pieces.SymbolsInjective | kjchess/Piece.swift:23-45 | no two kinds share an upper-case letter, and no two share a lower-case letter |
| Pieces.PieceSymbol | kjchess/Piece.swift:87-89 | a piece's symbol has two characters: the player symbol, then the kind letter |
| Pieces.OptionalPieceEquals | kjchess/Piece.swift:122-135 | equality on optional pieces holds exactly when both are absent or both are present with equal player and kind |
| Locations.MakeLocation | kjchess/Location.swift:29-33 | the initialiser demands a file and a rank in 0...7 and keeps them |
| Locations.IfValid | kjchess/Location.swift:72-78 | a location comes back exactly when file and rank are both in 0...7, and then with those coordinates |
| Locations.FileIndex | kjchess/Location.swift:111-126 | 'a'...'h' and 'A'...'H' give 0...7 in order; any other character gives nil |
| Locations.RankIndex | kjchess/Location.swift:128-143 | '1'...'8' give 0...7 in order; any other character gives nil |
| Locations.FromCharacters | kjchess/Location.swift:41-51 | the two-character initialiser succeeds exactly when both characters are valid, with the file and rank they name |
| Locations.Parse | kjchess/Location.swift:58-70 | the string initialiser succeeds exactly when the string has two characters, a valid file then a valid rank |
| Locations.Symbol | kjchess/Location.swift:80-109 | the algebraic symbol is a file letter 'a'...'h' followed by a rank digit '1'...'8' |
| Locations.ParseSymbol | kjchess/Location.swift:58-109 | parsing the symbol of any square gives back that square |
| Locations.SymbolParse | kjchess/Location.swift:58-109 | a string that parses, with a lower-case file, is the symbol of the square it names |
| Locations.ParseRejections | kjchess/Location.swift:58-70 | "", "a", "e5e", "5e", "a9" and "i1" are rejected; "e4" and "H8" name e4 and h8 |
| Locations.LineRelationsReflexiveSymmetric | kjchess/Location.swift:145-157 | same diagonal, same file and same rank are each reflexive and symmetric |
| Locations.HashValue | kjchess/Location.swift:171-175 | the hash of a square lies in 0...63 |
| Locations.HashValueInjective | kjchess/Location.swift:164-175 | squares with equal hashes are equal |
| Moves.Mover | kjchess/Move.swift:49-65 | a quiet move or capture is made by its piece's owner; every other move by the player it names |
| Moves.MovingPiece | kjchess/Move.swift:67-85 | the moving piece belongs to the mover; it is a pawn for promotions and en passant, the king for castling and resignation, and the named piece otherwise |
| Moves.From | kjchess/Move.swift:87-119 | castling and resignation start on the king's home square |
| Moves.SpecialMoveSquares | kjchess/Move.swift:98-165 | castling starts on e1 (White) or e8 (Black); kingside ends on the g-file and queenside on the c-file of that rank; resignation starts and ends on the king's home square |
| Moves.CapturedKind | kjchess/Move.swift:186-207 | a captured kind exists exactly for the capturing moves, and en passant captures a pawn |
| Moves.CapturedPiece | kjchess/Move.swift:209-216 | a captured piece exists exactly for capturing moves; it belongs to the mover's opponent and has the captured kind |
| Moves.PromotedKind | kjchess/Move.swift:227-247 | a promoted kind exists exactly for the two promoting moves |
| Moves.PromotedPiece | kjchess/Move.swift:249-256 | a promoted piece exists exactly for promotions; it belongs to the mover and has the promoted kind |
| Moves.Matches | kjchess/Move.swift:258-262 | defines `matches(from:to:)`: the move starts on `from` and ends on `to`; related to the other three forms in `Moves.MatchesRefine` |
| Moves.MatchesPiece | kjchess/Move.swift:264-269 | defines `matches(piece:from:to:)`: the moving piece is `piece` and the squares agree; related to the other forms in `Moves.MatchesRefine` |
| Moves.MatchesCapture | kjchess/Move.swift:271-277 | defines `matches(piece:from:to:isCapture:)`: the piece and squares agree and the move is a capture exactly when `isCapture`; related to the other forms in `Moves.MatchesRefine` |
| Moves.MatchesKind | kjchess/Move.swift:279-284 | defines `matches(kind:from:to:)`: the moving piece has kind `kind` and the squares agree; related to the other forms in `Moves.MatchesRefine` |
| Moves.MatchesRefine | kjchess/Move.swift:258-284 | each stricter form implies the looser ones (capture form, then piece form, then kind form and squares form); the piece form holds exactly when the capture form with the move's own capture flag holds; the kind form holds exactly when the piece form holds for the mover's piece of that kind; every move matches its own piece, squares and capture flag |
| Moves.CoordinateForm | kjchess/Move.swift:334-374 | the text has 4 characters, or 5 exactly for promotions; it is "0000" for resignation; otherwise it is the from-square, then the to-square, then the lower-case promotion letter when there is one |
| Moves.CoordinateFormExamples | kjchess/Move.swift:334-374 | castles read "e1g1", "e8g8", "e1c1" and "e8c8"; a double pawn push reads "e2e4" and a queen promotion "e7e8q" |
| Moves.MoveEquals | kjchess/Move.swift:417-460 | two moves are equal exactly when they are the same case with equal fields |
| Moves.HashValue | kjchess/Move.swift:463-467 | the hash of a move lies in 0 to 64 * 256 - 1 |
| Moves.HashValueConsistent | kjchess/Move.swift:417-467 | equal moves hash equally, and equal hashes mean equal from- and to-squares |
| Castling.Insert | kjchess/CastlingOptions.swift:9-14 | after inserting a flag, the set contains it |
| Castling.Remove | kjchess/CastlingOptions.swift:9-14 | after removing a flag, the set no longer contains it |
| Castling.RemoveShrinks | kjchess/CastlingOptions.swift:9-14 | removing a flag never adds another |
| Castling.KingsideFlag | kjchess/CastlingOptions.swift:16-23 | each player's kingside flag is one of the four flags |
| Castling.QueensideFlag | kjchess/CastlingOptions.swift:19-26 | each player's queenside flag is one of the four flags |
| Castling.FlagValues | kjchess/CastlingOptions.swift:16-26 | the four flags have raw values 1, 2, 4 and 8, and no flag contains another |
| Castling.AllAndNone | kjchess/CastlingOptions.swift:28-35 | `all` has raw value 15 and contains every flag; `none` has raw value 0 and contains none |
| Castling.InsertRemoveFrame | kjchess/CastlingOptions.swift:9-26 | inserting or removing one flag leaves the other three unchanged |
| Boards.SquareIndex | kjchess/Board.swift:106-110 | the index of a square lies in 0...63, with the rank as its quotient by 8 and the file as its remainder |
| Boards.LocationOfIndex | kjchess/Board.swift:96-104 | every index in 0...63 is the index of the square built from it |
| Boards.SquareIndexInjective | kjchess/Board.swift:83-104 | different squares have different indexes |
| Boards.AtFileRank | kjchess/Board.swift:106-110 | reading by file and rank agrees with reading the square; file 8 on a rank below the last wraps round to file a of the next rank |
| Boards.NewGameLayout | kjchess/Board.swift:44-65 | the new-game board is laid out rank by rank: White's back rank and pawns on ranks 1 and 2, Black's on ranks 8 and 7, kings on e1 and e8; the comment on the storage arrays describes a file-major layout instead |
| Boards.NewGameRanks | kjchess/Board.swift:44-52 | the eight ranks of the new-game board, each as its eight squares |
| Boards.EnPassantVictim | kjchess/Board.swift:155-160 | the pawn taken en passant stands on the target's file, one rank behind the target from the capturer's side |
| Boards.After | kjchess/Board.swift:138-202 | defines the board after `apply`: the effect of each kind of move on the squares; stated in `Boards.ApplyFrame`, `Boards.ApplyEffect` and `Boards.UnapplyAfterApply` |
| Boards.Unapplied | kjchess/Board.swift:204-272 | defines the board after `unapply`, which puts back the moved, captured and castling pieces; stated in `Boards.UnapplyFrame`, `Boards.CastleRestores` and `Boards.UnapplyAfterApply` |
| Boards.UnapplyAfterApply | kjchess/Board.swift:138-272 | undoing a move right after making it restores the board exactly, for every kind of move the board agrees with |
| Boards.CastleRestores | kjchess/Board.swift:162-268 | undoing a castle puts king and rook back square by square |
| Boards.ApplyFrame | kjchess/Board.swift:138-202 | applying a move leaves every square it does not touch unchanged |
| Boards.UnapplyFrame | kjchess/Board.swift:204-272 | undoing a move leaves every square it does not touch unchanged |
| Boards.ApplyEffect | kjchess/Board.swift:138-202 | after a move the destination holds the arriving piece (the promoted piece for promotions), the origin is empty, and the pawn taken en passant is gone |
| Boards.WithAllFrame | kjchess/Board.swift:285-296 | placing pieces leaves every other square unchanged |
| Boards.WithAllLastWins | kjchess/Board.swift:285-296 | where several pieces go to one square, the last one placed stays |
| Boards.PiecesOfExact | kjchess/Board.swift:298-309 | the player's piece list holds exactly the player's pieces with their squares, in increasing square order |
| Boards.NewGamePieceCount | kjchess/Board.swift:298-309 | each player has 16 pieces on the new-game board |
| Boards.KingLocationFirst | kjchess/Board.swift:311-321 | the king location is the first square in index order holding the player's king, and is nil exactly when there is none |
| Boards.Board.Put | kjchess/Board.swift:83-104 | writing one square changes exactly that square |
| Boards.Board.Apply | kjchess/Board.swift:138-202 | applying a move in place gives the board `after` computes |
| Boards.Board.Unapply | kjchess/Board.swift:204-272 | undoing a move in place gives the board `Unapplied` computes |
| Boards.Board.With | kjchess/Board.swift:274-296 | a fresh board with the given pieces placed in order, the original untouched |
| Boards.Board.Pieces | kjchess/Board.swift:298-309 | the loop collects exactly the player's piece list |
| Boards.Board.KingLocation | kjchess/Board.swift:311-321 | the loop returns the first square holding the player's king, or nil |
| Boards.Board.Equals | kjchess/Board.swift:324-334 | two boards are equal exactly when every square agrees |
| Boards.Arriving | kjchess/Board.swift:138-202 | the piece put on the destination, the promoted piece or the mover, belongs to the side that moves |
| Positions.MakePosition | kjchess/Position.swift:19-23 | a new position keeps the board, side to move and history it is given, starts with every castling right and no en-passant target |
| Positions.NewGame | kjchess/Position.swift:25-27 | the new game has White to move, no history, and the initial layout on the board |
| Positions.RookHomeValues | kjchess/CastlingOptions.swift:16-26 | the rook home squares of the four castling rights are h1, a1, h8 and a8 |
| Positions.EnPassantAfter | kjchessTests/Position_legalMovesTests.swift:891-925 | an en-passant target appears only after a pawn's double push, on the square it skipped |
| Positions.After | kjchess/Position.swift:29-38 | the next position has the board after the move, the other side to move, and the history extended by exactly that move |
| Positions.KingMoveClearsCastling | kjchessTests/Position_legalMovesTests.swift:631-710 | after any king move, castling included, the mover has neither castling right |
| Positions.CastlingRightsOnlyShrink | kjchessTests/Position_legalMovesTests.swift:631-710 | no move ever grants a castling right |
| Positions.CastlingAfterShrinks | kjchessTests/Position_legalMovesTests.swift:631-710 | updating the castling rights after a move only removes rights |
| Positions.QuietMoveKeepsCastling | kjchessTests/Position_legalMovesTests.swift:631-710 | a non-king move that neither leaves nor lands on a rook home square keeps every castling right |
| Positions.CastlingExample | kjchessTests/Position_legalMovesTests.swift:631-710 | castling removes both of the mover's rights and keeps both of the opponent's |
| Positions.CastleClearsMoverRights | kjchessTests/Position_legalMovesTests.swift:631-710 | castling removes exactly the mover's two rights |
| Positions.EnPassantExamples | kjchessTests/Position_legalMovesTests.swift:891-925 | d7-d5 sets the target d6 and e2-e4 sets e3 |
| Positions.AfterKeepsEnPassantSound | kjchess/Position_legalMoves.swift:173-178 | in every position reached by a move, the square one rank behind the en-passant target, from the side to move's view, holds the opponent's pawn; the contract says nothing about the target itself |
| Positions.NewGameEnPassantSound | kjchess/Position.swift:25-27 | the new game has no en-passant target |
| MoveGeneration.RayMeasureDecreases | kjchess/Position_legalMoves.swift:59-77 | each step along a ray from a square on the board gets closer to the edge, so the ray loop ends |
| MoveGeneration.Promotions | kjchess/Position_legalMoves.swift:127-134 | a push to the last rank gives the four promotions, in the order knight, bishop, rook, queen |
| MoveGeneration.PromotionCaptures | kjchess/Position_legalMoves.swift:156-164 | a capture onto the last rank gives the four promoting captures in that order |
| MoveGeneration.OptionalPair | kjchess/Position_legalMoves.swift:295-335 | the castling list holds kingside exactly when it is allowed and queenside exactly when it is allowed, and nothing else |
| MoveGeneration.SlideRay | kjchess/Position_legalMoves.swift:60-77 | defines the moves along one ray: quiet moves onto the empty squares, then a capture of the first piece when it is the opponent's; stated in `MoveGeneration.SlideRaySound`, `MoveGeneration.SlideRayGeometry` and `MoveGeneration.SlideRayExact`, and computed by `MoveGeneration.AddSlideRay` |
| MoveGeneration.PawnMoves | kjchess/Position_legalMoves.swift:114-182 | defines a pawn's pushes followed by its captures; stated in `MoveGeneration.PawnMovesSound`, `MoveGeneration.PawnPushesSound` and `MoveGeneration.PawnCaptureSound`, and computed by `MoveGeneration.AddPawnMoves` |
| MoveGeneration.CastlingMoves | kjchess/Position_legalMoves.swift:295-335 | defines the castles a side is offered; stated in `MoveGeneration.CastlingMovesExact` |
| MoveGeneration.PossibleMoves | kjchess/Position_legalMoves.swift:31-40 | defines the moves of the side's pieces in board order; stated in `MoveGeneration.PossibleMovesSound`, `MoveGeneration.PossibleMovesPlaced` and `MoveGeneration.PossibleMovesCastling`, computed by `MoveGeneration.ComputePossibleMoves`, and counted in `OpeningMoves.OpeningPossibleMoves` |
| MoveGeneration.StepTargetSound | kjchess/Position_legalMoves.swift:199-293 | a knight or king step is a quiet move onto an empty square or a capture of an opponent's piece, one vector away |
| MoveGeneration.StepMovesSound | kjchess/Position_legalMoves.swift:193-214 | every knight or king step move agrees with the board and is the piece's own, and it lands exactly one of the listed vectors away from the start square |
| MoveGeneration.PrependSound | kjchess/Position_legalMoves.swift:59-77 | a ray stays sound when one more sound quiet move is put in front |
| MoveGeneration.SlideRaySound | kjchess/Position_legalMoves.swift:55-79 | every move along a ray is a quiet move onto an empty square or a capture of an opponent's piece, by the slider from its square |
| MoveGeneration.SlideRayStopsAtCapture | kjchess/Position_legalMoves.swift:62-76 | every move on a ray but the last is a quiet move onto an empty square: the slider stops at the first occupied square |
| MoveGeneration.SlideRaysSound | kjchess/Position_legalMoves.swift:55-79 | the same holds for all the rays of a slider |
| MoveGeneration.AlongClosedForm | kjchess/Position_legalMoves.swift:60-77 | the j-th square along a direction from a point is the point plus j times the vector |
| MoveGeneration.SlideRayGeometry | kjchess/Position_legalMoves.swift:60-77 | the i-th move of the ray whose first square is (file, rank) lands at file + i * df, rank + i * dr |
| MoveGeneration.SlideRayAlong | kjchess/Position_legalMoves.swift:60-77 | the i-th move of a ray whose first square is (file, rank) lands i steps along the ray's direction from there |
| MoveGeneration.SlideRayFirst | kjchess/Position_legalMoves.swift:60-77 | a ray whose first square is off the board or occupied is empty, or, when that square holds an opposing piece, the single capture of it |
| MoveGeneration.SlideRayExact | kjchess/Position_legalMoves.swift:60-77 | when the first k squares along the ray are on the board and empty, the ray has a quiet move onto each of them in order; if square k is occupied, the ray ends there, with one more move exactly when that square holds an opposing piece, and that move captures it |
| MoveGeneration.SlideRaysGeometry | kjchess/Position_legalMoves.swift:55-79 | every move of a slider lands a whole positive number of steps along one of its directions |
| MoveGeneration.PawnPushesSound | kjchess/Position_legalMoves.swift:114-148 | a pawn push goes straight ahead onto an empty square, one rank, or two from the start rank over an empty square; it promotes exactly on the last rank |
| MoveGeneration.DoublePushTarget | kjchess/Position_legalMoves.swift:138-146 | a double push by the side to move sets the en-passant target to the skipped square, on the pawn's file and on rank 3 for White or 6 for Black; that square is empty after the move and the position's target stays sound |
| MoveGeneration.PawnPushPromotions | kjchess/Position_legalMoves.swift:124-134 | a push onto an empty last-rank square gives exactly the four promotions |
| MoveGeneration.PawnCaptureSound | kjchess/Position_legalMoves.swift:150-180 | a pawn capture goes one file aside and one rank ahead; it is en passant exactly when the target is empty, and then the target is the position's en-passant square; otherwise it promotes exactly on the last rank |
| MoveGeneration.PawnCapturesSound | kjchess/Position_legalMoves.swift:150-180 | both diagonal captures of a pawn are sound captures |
| MoveGeneration.PawnMovesSound | kjchess/Position_legalMoves.swift:114-182 | every pawn move agrees with the board and is never a castle or resignation; a pawn on the first or last rank has no moves |
| MoveGeneration.CastlingMovesExact | kjchess/Position_legalMoves.swift:295-335 | castling kingside is offered exactly when the right is held, the king and rook stand at home and the squares between are empty; queenside likewise; nothing else is offered |
| MoveGeneration.CastlingMovesSound | kjchess/Position_legalMoves.swift:295-335 | an offered castle agrees with the board |
| MoveGeneration.KingMovesSound | kjchess/Position_legalMoves.swift:271-336 | every king move agrees with the board and belongs to the king's owner |
| MoveGeneration.PieceMovesSound | kjchess/Position_legalMoves.swift:42-53 | every move of a piece of the side to move agrees with the board; only a king can castle |
| MoveGeneration.MovesOfPiecesSound | kjchess/Position_legalMoves.swift:31-40 | every move of a list of the side's pieces agrees with the board |
| MoveGeneration.PossibleMovesSound | kjchess/Position_legalMoves.swift:31-40 | every possible move is the side to move's and agrees with the board |
| MoveGeneration.MovesOfPiecesIncludes | kjchess/Position_legalMoves.swift:36-38 | the moves of each listed piece are among the moves of the list |
| MoveGeneration.KingMovesCastles | kjchess/Position_legalMoves.swift:271-336 | the only castles among king moves are the offered ones |
| MoveGeneration.PieceMovesCastles | kjchess/Position_legalMoves.swift:42-53 | the only castles among a piece's moves are the offered ones |
| MoveGeneration.PossibleMovesCastling | kjchess/Position_legalMoves.swift:295-335 | a castle is a possible move exactly when its right is held, king and rook stand at home and the squares between are empty |
| MoveGeneration.CastlesOfferedArePossible | kjchess/Position_legalMoves.swift:31-40 | every offered castle is among the possible moves |
| MoveGeneration.PossibleMovesCastlesOffered | kjchess/Position_legalMoves.swift:31-40 | every castle among the possible moves is an offered one |
| MoveGeneration.PossibleMovesPlaced | kjchess/Position_legalMoves.swift:31-40 | every possible move is made by the side to move and can be applied |
| MoveGeneration.AddStepMoves | kjchess/Position_legalMoves.swift:193-214 | the loop over step vectors appends exactly the step moves, in vector order |
| MoveGeneration.AddKnightMoves | kjchess/Position_legalMoves.swift:186-214 | the knight loop appends exactly the moves to the eight jump squares |
| MoveGeneration.AddSlideRay | kjchess/Position_legalMoves.swift:60-77 | the inner while loop appends exactly the moves along one ray |
| MoveGeneration.AddSlideMoves | kjchess/Position_legalMoves.swift:55-79 | the loop over directions appends exactly the moves of all rays |
| MoveGeneration.AddPromotions | kjchess/Position_legalMoves.swift:128-133 | the loop appends the four promotions |
| MoveGeneration.AddPromotionCaptures | kjchess/Position_legalMoves.swift:157-163 | the loop appends the four promoting captures |
| MoveGeneration.AddPawnPushes | kjchess/Position_legalMoves.swift:120-148 | the push code appends exactly the pawn pushes |
| MoveGeneration.AddPawnMoves | kjchess/Position_legalMoves.swift:114-182 | the pawn code appends exactly the pawn's pushes and captures |
| MoveGeneration.AddKingMoves | kjchess/Position_legalMoves.swift:271-336 | the king code appends exactly the steps and the allowed castles |
| MoveGeneration.AddMoves | kjchess/Position_legalMoves.swift:42-53 | the dispatch appends exactly the piece's moves for its kind |
| MoveGeneration.AddMovesOfPieces | kjchess/Position_legalMoves.swift:34-39 | the loop over pieces collects exactly the moves of every listed piece, in list order |
| MoveGeneration.ComputePossibleMoves | kjchess/Position_legalMoves.swift:31-40 | the possible moves are those of the side's pieces, in board order |
| MoveGeneration.KingMovesIncludeCastling | kjchess/Position_legalMoves.swift:271-336 | a king's moves include every castling move its side is offered |
| MoveGeneration.PieceMovesPlaced | kjchess/Position_legalMoves.swift:42-53 | every move generated for a piece of the side to move is made by that side and can be applied: the square of a pawn taken en passant lies on the board |
| Attacks.Attacked | kjchess/Position_legalMoves.swift:388-447 | defines the attack relation: a knight or king a step away, a rook or queen on a line or a bishop or queen on a diagonal with only empty squares between, or a pawn one capture step behind; stated ray by ray in `Attacks.SlideAttackedExact` and computed by `Attacks.IsAttacked` |
| Attacks.AttackerFromBlocked | kjchess/Position_legalMoves.swift:457-464 | at an occupied square the ray search ends: it reports an attack exactly when that piece is the attacker's and of a sliding kind |
| Attacks.AttackerFromEmpty | kjchess/Position_legalMoves.swift:465-468 | at an empty square the ray search moves on to the next square |
| Attacks.SlideAttackerExact | kjchess/Position_legalMoves.swift:449-471 | the ray walk from any point finds an attacker exactly when the first occupied square from there holds one of the attacker's sliding kinds |
| Attacks.SlideAttackedExact | kjchess/Position_legalMoves.swift:449-471 | a square is attacked along a direction exactly when some square on that ray holds an attacking slider of a listed kind and every square before it is empty |
| Attacks.IsAttackedBySlide | kjchess/Position_legalMoves.swift:449-471 | the while loop answers exactly whether the square is attacked along the direction |
| Attacks.IsAttackedByStep | kjchess/Position_legalMoves.swift:393-433 | the knight and king loops report an attack exactly when some listed step away stands an attacker's piece of that kind |
| Attacks.IsAttackedBySlides | kjchess/Position_legalMoves.swift:404-422 | the rook and bishop loops report an attack exactly when some listed direction is attacked |
| Attacks.IsAttackedByPawn | kjchess/Position_legalMoves.swift:435-444 | the pawn loop reports an attack exactly when an attacker's pawn stands one capture step behind the square |
| Attacks.IsAttacked | kjchess/Position_legalMoves.swift:388-447 | the whole detector computes exactly the attack relation: knight, rook or queen on lines, bishop or queen on diagonals, king, then pawn |
| Legality.IsLegal | kjchess/Position_legalMoves.swift:340-386 | defines `isLegal`, move kind by move kind; stated in `Legality.KingMoveLegality`, `Legality.CastlingLegality` and `Legality.NonKingMoveLegality` |
| Legality.LegalMoves | kjchess/Position_legalMoves.swift:10-22 | defines `legalMoves` as the possible moves filtered by `isLegal`; stated in `Legality.LegalMovesCases`, `Legality.LegalMovesMembership` and `Legality.LegalMovesSubsequence`, and counted in `OpeningMoves.NewGameLegalMoveCount` |
| Legality.CastlingTransit | kjchess/Position_legalMoves.swift:352-368 | the square a castling king passes over is f1, d1, f8 or d8 |
| Legality.FilterMembership | kjchess/Position_legalMoves.swift:19-21 | a move survives the filter exactly when it is among the possible moves and passes the test |
| Legality.FilterSubsequence | kjchess/Position_legalMoves.swift:19-21 | the filter keeps the surviving moves in their original order |
| Legality.LegalMovesCases | kjchess/Position_legalMoves.swift:10-22 | without a king every possible move is legal; with one, the legal moves are the possible moves that pass the legality test |
| Legality.LegalMovesSubsequence | kjchess/Position_legalMoves.swift:10-22 | the legal moves are the possible moves with some left out, order kept |
| Legality.LegalMovesMembership | kjchess/Position_legalMoves.swift:340-386 | with a king on the board, a move is legal exactly when it is possible and passes `isLegal` |
| Legality.LegalMovesPlaced | kjchess/Position_legalMoves.swift:10-22 | every legal move is the side to move's and can be applied |
| Legality.NonKingMoveLegality | kjchess/Position_legalMoves.swift:373-385 | a move of another piece is accepted outright unless the side is in check or the piece shares a line with its king; then it is accepted exactly when the king is not attacked after it |
| Legality.KingMoveLegality | kjchess/Position_legalMoves.swift:345-349 | a king step is accepted exactly when its destination is not attacked on the current board |
| Legality.CastlingLegality | kjchess/Position_legalMoves.swift:345-372 | a castle is accepted exactly when the king is not in check and neither its destination nor the square it crosses is attacked |
| Legality.RetreatShielded | kjchess/Position_legalMoves.swift:449-471 | on the example board the king's own body hides e1 from the rook on e8 |
| Legality.RetreatCheck | kjchess/Position_legalMoves.swift:388-447 | on the example board the king on e2 is in check from the rook |
| Legality.RetreatExposed | kjchess/Position_legalMoves.swift:388-447 | once the king steps back to e1, the rook attacks e1 |
| Legality.KingRetreatOnCheckingLine | kjchess/Position_legalMoves.swift:345-349 | the legality test accepts a king retreat along the checking line although the king stands attacked afterwards |
| OpeningMoves.NewGameLegalMoveCount | kjchessTests/Position_legalMovesTests.swift:12-36 | the new game has exactly 20 legal moves |
| OpeningMoves.OpeningLegalMoves | kjchess/Position_legalMoves.swift:10-22 | in the starting position every possible move is legal, so the legal moves are the 20 possible moves |
| OpeningMoves.OpeningPossibleMoves | kjchess/Position_legalMoves.swift:31-40 | the possible moves of the starting position are those of the 16 white pieces in board order, 20 in all |
| OpeningMoves.PawnOpening | kjchessTests/Position_legalMovesTests.swift:16-23 | each pawn on its start square has exactly the single and the double push |
| OpeningMoves.KnightOpening | kjchessTests/Position_legalMovesTests.swift:24-25 | each knight has exactly its two jumps to the third rank |
| OpeningMoves.KingOpening | kjchess/Position_legalMoves.swift:271-336 | the king in the starting position has no move: every step is blocked by its own pieces and castling is blocked |
| OpeningMoves.BackRankOpening | kjchess/Position_legalMoves.swift:42-79 | the rooks, bishops and queen in the starting position have no move |
| OpeningMoves.ArmyFrom | kjchess/Board.swift:298-309 | White's piece list in the starting position is the back rank from a1 to h1 followed by the pawns from a2 to h2 |
| OpeningMoves.E1FileClosed | kjchess/Position_legalMoves.swift:449-470 | no black rook or queen attacks e1 up the e-file while Black's pieces are on ranks 7 and 8 and some square from e2 to e6 is occupied |
| OpeningMoves.E1Safe | kjchess/Position_legalMoves.swift:388-447 | with Black's pieces on ranks 7 and 8 only, White's pieces on d1 and f1 and some piece on the e-file in front of e1, the square e1 is not attacked |
| OpeningMoves.ShapeSafe | kjchess/Position_legalMoves.swift:373-385 | after any single pawn push or knight jump from the starting position the white king on e1 is not attacked |
| OpeningMoves.OpeningNotInCheck | kjchess/Position_legalMoves.swift:17 | White is not in check in the starting position |
| CoordinateMoves.ParseCoordinateMove | kjchess/parseCoordinateMove.swift:11-37 | parsing succeeds exactly for 4 or 5 characters forming two valid squares and, for 5, a piece letter; the result holds those squares and the kind |
| CoordinateMoves.ParseCoordinateForm | kjchess/parseCoordinateMove.swift:11-37 | parsing the coordinate text of any move other than resignation gives back its from-square, to-square and promoted kind |
| CoordinateMoves.ResignationDoesNotParse | kjchess/parseCoordinateMove.swift:11-37 | the resignation text "0000" does not parse |
| CoordinateMoves.ParseCoordinateMoveRejections | kjchess/parseCoordinateMove.swift:17-21 | "", "e", "e2" and "e2e" are rejected |
| CoordinateMoves.ParseCoordinateMoveExamples | kjchess/parseCoordinateMove.swift:11-37 | "e2e4" and "a1h8" parse to their squares with no promotion |
| CoordinateMoves.ParseCoordinatePromotionExamples | kjchess/parseCoordinateMove.swift:25-29 | "e7e8q", "d7d8b", "b2b1n", "a2a1r" and "E2E4K" parse with their promotion kinds, letters in either case |
| ArrayUtils.Appending | kjchess/Array_appending.swift:10-19 | the copy is the array with the element added at the end |
| ArrayUtils.Prepending | kjchess/Array_appending.swift:21-30 | the copy is the element followed by the array |
| ArrayUtils.AppendRepeating | kjchess/Array_appendRepeating.swift:11-19 | the array keeps its elements and gains `count` copies of the element |
| ArrayUtils.ShuffleAsWritten | kjchess/Array_shuffle.swift:11-22 | the swaps only permute the elements; the range `0..<(count - 1)` demands at least one element |
| ArrayUtils.Shuffle | kjchess/Array_shuffle.swift:11-22 | the swaps only permute the elements, for every array including the empty one |
| ArrayUtils.ShuffleSteps | kjchess/Array_shuffle.swift:13-21 | each swap of position `i` with a later position keeps the multiset of elements |
| ArrayUtils.RandomPick | kjchess/Array_randomPick.swift:11-22 | nil exactly for the empty array, otherwise the element at the drawn position |
| Fen.ReplaceAll | kjchess/FEN.swift:58-66 | defines `replacingOccurrences`, left to right and without overlap; stated in `Fen.ReplaceAllShortRun` and `Fen.CollapseStep` |
| Fen.BoardFen | kjchess/FEN.swift:16-18 | defines the board text, rank 8 first, joined with '/'; stated in `Fen.BoardFenRanks` and `Fen.FenRoundTrip` |
| Fen.RankSquares | kjchess/FEN.swift:71-109 | defines the reading of one rank text, with its invalid-character error; stated in `Fen.RankCharsAccepts`, `Fen.RankCharsError`, `Fen.RankCharsWidth` and `Fen.RankRoundTrip` |
| Fen.FenBoard | kjchess/FEN.swift:20-49 | defines the reading of the board text, with its wrong-rank-count error; stated in `Fen.FenBoardAccepts`, `Fen.FenBoardRanks` and `Fen.FenRoundTrip` |
| Fen.PieceFenLetters | kjchess/FEN.swift:89-135 | White pieces are written in upper case and Black in lower case, and reading a letter gives a piece exactly when that piece is written with that letter |
| Fen.PieceFenInjective | kjchess/FEN.swift:118-135 | no two pieces share a FEN letter |
| Fen.SpelledAppend | kjchess/FEN.swift:54-56 | spelling one more square appends its letter, or "1" for an empty square |
| Fen.FenRank | kjchess/FEN.swift:51-69 | the loop and the seven replacement passes produce exactly the rank text |
| Fen.FenRankCollapses | kjchess/FEN.swift:58-66 | the replacement cascade, longest run first, turns every maximal run of k empty squares into the single digit k |
| Fen.ReplaceAllShortRun | kjchess/FEN.swift:58-66 | a run of ones shorter than the pattern passes through a replacement unchanged |
| Fen.CollapseStep | kjchess/FEN.swift:58-66 | replacing runs of n ones in text where only runs shorter than n + 1 remain collapses exactly the runs of length n |
| Fen.RewrittenCollapse | kjchess/FEN.swift:60-66 | the passes from length n down to 2 finish the collapse started by the longer passes |
| Fen.CollapseEmptyRank | kjchess/FEN.swift:60 | a rank of eight empty squares is written "8" |
| Fen.FenRankNoAdjacentDigits | kjchess/FEN.swift:51-69 | a written rank never has two digits next to each other |
| Fen.ParseRankSquares | kjchess/FEN.swift:71-109 | the loop over the characters of a rank gives exactly the squares `rankSquares` defines, or its first error |
| Fen.RankCharsAccepts | kjchess/FEN.swift:79-106 | a rank is read without error exactly when every character is a digit 1 to 7 or a piece letter |
| Fen.RankCharsError | kjchess/FEN.swift:103-104 | an invalid rank reports its first invalid character |
| Fen.RankCharsWidth | kjchess/FEN.swift:79-106 | a rank read without error holds as many squares as its digits and letters stand for |
| Fen.RankSquaresNoSeparator | kjchess/FEN.swift:71-109 | a rank read without error contains no '/' |
| Fen.RankRoundTrip | kjchess/FEN.swift:51-109 | reading back the written text of any rank gives that rank's eight squares |
| Fen.BoardFenRanks | kjchess/FEN.swift:16-18 | the board text splits into the eight rank texts, rank 8 first, and each reads back as its rank |
| Fen.ParseSquares | kjchess/FEN.swift:39-49 | the loop over the eight ranks gives exactly the squares of rank 1 first, or the first error |
| Fen.ParseFenBoard | kjchess/FEN.swift:20-28 | the initialiser gives exactly the squares `FenBoard` defines, or its error |
| Fen.SquaresFromAccepts | kjchess/FEN.swift:39-49 | the ranks are read without error exactly when each of them is |
| Fen.FenBoardAccepts | kjchess/FEN.swift:20-28 | the board text is read without error exactly when it has eight '/'-separated ranks that each read without error; a wrong rank count gives its own error |
| Fen.FenBoardRanks | kjchess/FEN.swift:39-49 | when every rank reads as eight squares, the board has 64 squares and its rank r is the text's rank 8 - r |
| Fen.FenRoundTrip | kjchess/FEN.swift:16-109 | reading back the FEN board text of any board gives that board |
| Fen.SpelledExpands | kjchess/FEN.swift:30-37 | each square written as one character, '1' for an empty one, reads back as the same square |
| CoordinateMoveLookup.Find | kjchess/Position_after_coordinateMove.swift:43-69 | defines the lookup of the legal move a coordinate string names; stated in `CoordinateMoveLookup.FindErrors`, `CoordinateMoveLookup.FindIsLegal`, `CoordinateMoveLookup.FindSingleMatch` and `CoordinateMoveLookup.FindNoSingleMatch` |
| CoordinateMoveLookup.AfterCoordinateMove | kjchess/Position_after_coordinateMove.swift:16-19 | defines playing one coordinate string; stated in `CoordinateMoveLookup.AfterCoordinateMoveIsAfterFind` and `CoordinateMoveLookup.AfterCoordinateMoveStep` |
| CoordinateMoveLookup.AfterCoordinateMoves | kjchess/Position_after_coordinateMove.swift:28-34 | defines playing a list of strings as a fold; stated in `CoordinateMoveLookup.AfterCoordinateMovesHistory` and `CoordinateMoveLookup.AfterCoordinateMovesFailure`, computed by `CoordinateMoveLookup.PlayCoordinateMoves` |
| CoordinateMoveLookup.FindErrors | kjchess/Position_after_coordinateMove.swift:43-69 | a string that does not parse fails with the invalid-coordinate-move error carrying the string, and exactly then; any other failure is the no-matching-moves error carrying the parsed from, to and promotion |
| CoordinateMoveLookup.FindIsLegal | kjchess/Position_after_coordinateMove.swift:43-66 | a found move is a legal move of the position joining the parsed squares, and when more than one legal move joins them it also has the requested promotion kind |
| CoordinateMoveLookup.FindSingleMatch | kjchess/Position_after_coordinateMove.swift:50-56 | when exactly one legal move joins the parsed squares, that move is returned whatever promotion letter was given |
| CoordinateMoveLookup.FindNoSingleMatch | kjchess/Position_after_coordinateMove.swift:50-68 | when no legal move joins the squares, or several do and no promotion letter was given, the lookup fails with the no-matching-moves error |
| CoordinateMoveLookup.AfterCoordinateMoveStep | kjchess/Position_after_coordinateMove.swift:16-19 | a successful coordinate move appends one move to the history and hands the turn to the opponent |
| CoordinateMoveLookup.AfterCoordinateMoveIsAfterFind | kjchess/Position_after_coordinateMove.swift:16-19 | playing a coordinate move succeeds exactly when the lookup does, and then yields the position after the found legal move |
| CoordinateMoveLookup.PlayCoordinateMoves | kjchess/Position_after_coordinateMove.swift:28-34 | the loop that plays the strings one after another returns the fold of the single-move step over the list, stopping at the first error |
| CoordinateMoveLookup.AfterOneCoordinateMove | kjchess/Position_after_coordinateMove.swift:28-34 | playing a one-string list is playing that string |
| CoordinateMoveLookup.PlayAllOne | kjchess/Position_after_coordinateMove.swift:28-34 | folding a step over a one-string list is one application of the step |
| CoordinateMoveLookup.PlayAllAppend | kjchess/Position_after_coordinateMove.swift:28-34 | playing a concatenation of move lists is playing the first list and then, from where it ends, the second; an error in the first list is the result |
| CoordinateMoveLookup.PlayAllHistory | kjchess/Position_after_coordinateMove.swift:28-34 | for a step that adds one move, a successful fold extends the history by exactly one move per string, keeps the old history as a prefix and alternates the side to move |
| CoordinateMoveLookup.PlayAllFailure | kjchess/Position_after_coordinateMove.swift:28-34 | a failing fold names the first string that fails: the strings before it all succeed and the error is the one that string raises |
| CoordinateMoveLookup.AfterCoordinateMovesHistory | kjchess/Position_after_coordinateMove.swift:28-34 | after a successful list of coordinate moves the history grows by one move per string, keeping the old history, and the side to move alternates |
| CoordinateMoveLookup.AfterCoordinateMovesFailure | kjchess/Position_after_coordinateMove.swift:28-34 | a failing list of coordinate moves fails with the error of its first unplayable string, from the position reached by the strings before it |
| Evaluation.MaterialValue | kjchess/evaluate.swift:243-253 | defines the material value of each kind; ordered in `Evaluation.MaterialOrder` |
| Evaluation.SquareValue | kjchess/evaluate.swift:47-74 | defines the table bonus of a piece on a square; bounded in `Evaluation.TableBounds` and mirrored in `Evaluation.SquareValueMirror` |
| Evaluation.Evaluate | kjchess/evaluate.swift:16-18 | defines the score of a position as the board's piece-square sum; bounded in `Evaluation.EvaluateBounds`, negated by swapping colours in `Evaluation.PieceSquareValueSwapSides`, and zero at the start in `Evaluation.NewGameIsLevel` |
| Evaluation.MaterialOrder | kjchess/evaluate.swift:243-253 | material values rise from pawn through knight, bishop, rook and queen to king, and the king outweighs all other pieces of a full side together |
| Evaluation.SquareValues | kjchess/evaluate.swift:55-74 | each piece's square table has eight ranks of eight entries |
| Evaluation.Mirror | kjchess/evaluate.swift:90-231 | mirroring keeps the file and flips the rank |
| Evaluation.BlackTablesMirrorWhite | kjchess/evaluate.swift:90-231 | for every kind, the black table's rank 7 - r is the white table's rank r |
| Evaluation.SquareValueMirror | kjchess/evaluate.swift:90-231 | a piece of the other colour on the mirrored square gets the same table value |
| Evaluation.WhiteTablesWithinHalfPawn | kjchess/evaluate.swift:90-219 | every white table entry lies within half a pawn either way |
| Evaluation.MinorTablesWithinHalfPawn | kjchess/evaluate.swift:90-147 | the pawn, knight and bishop tables lie within half a pawn either way |
| Evaluation.MajorTablesWithinHalfPawn | kjchess/evaluate.swift:161-219 | the rook, queen and king tables lie within half a pawn either way |
| Evaluation.TableBounds | kjchess/evaluate.swift:47 | every table lookup, for either colour, lies within half a pawn either way |
| Evaluation.SquareScoreSign | kjchess/evaluate.swift:39-52 | a square scores zero exactly when it is empty, above zero exactly when it holds a white piece and below zero exactly when it holds a black piece |
| Evaluation.SquareScoreBounds | kjchess/evaluate.swift:39-52 | one square scores at most a king plus half a pawn either way |
| Evaluation.ScoreUpToBounds | kjchess/evaluate.swift:29-33 | the running sum over the first n squares stays within n times the largest square score |
| Evaluation.EvaluateBounds | kjchess/evaluate.swift:16-18 | every position's score lies within 64 times the largest square score |
| Evaluation.ScoreUpToSet | kjchess/evaluate.swift:29-33 | changing one square changes the running sum only once the sum has passed that square, and then by exactly the change in that square's score |
| Evaluation.PieceSquareValueSet | kjchess/evaluate.swift:29-33 | changing one square changes the board's score by exactly the change in that square's score |
| Evaluation.ScoreUpToOneSided | kjchess/evaluate.swift:29-33 | a running sum over a board with only white pieces is never negative, and one with only black pieces never positive |
| Evaluation.OneSidedScore | kjchess/evaluate.swift:16-33 | a board with only white pieces scores at least zero and one with only black pieces at most zero |
| Evaluation.SwappedPiece | kjchess/evaluate.swift:55-74 | swapping a square keeps it empty or keeps the kind and gives the piece to the other player |
| Evaluation.SwapSides | kjchess/evaluate.swift:90-231 | the swapped board holds on each square the colour-swapped content of the mirrored square |
| Evaluation.SquareScoreSwapped | kjchess/evaluate.swift:39-52 | on a colour-swapped mirrored board each square scores the negation of its mirror square on the original |
| Evaluation.RankScoreSwapped | kjchess/evaluate.swift:29-33 | a rank's partial sum on the swapped board is the negation of the mirrored rank's partial sum on the original |
| Evaluation.ScoreUpToRanks | kjchess/evaluate.swift:29-33 | the running sum into a rank is the sum of the whole ranks before it plus the partial sum inside the rank |
| Evaluation.ScoreUpToRankStep | kjchess/evaluate.swift:29-33 | each step of the running sum inside a rank adds the score of the next square of that rank |
| Evaluation.ScoreUpToStep | kjchess/evaluate.swift:29-33 | each step of the running sum adds the score of the square at that index |
| Evaluation.ScoreUpToByRanks | kjchess/evaluate.swift:29-33 | the running sum over whole ranks equals the sum of those ranks' scores |
| Evaluation.RanksUpToSwapped | kjchess/evaluate.swift:29-33 | the first n ranks of the swapped board score the negation of the last n ranks of the original |
| Evaluation.PieceSquareValueSwapped | kjchess/evaluate.swift:29-33 | any colour-swapped mirror image of a board scores the negation of the board's score |
| Evaluation.PieceSquareValueSwapSides | kjchess/evaluate.swift:29-33 | swapping colours and mirroring a board negates its score |
| Evaluation.NewGameIsOwnSwap | kjchess/Board.swift:44-52 | the starting layout is its own colour-swapped mirror image |
| Evaluation.NewGameIsLevel | kjchess/evaluate.swift:16-33 | the starting position scores exactly zero |
| Search.CapturesFirst | kjchess/bestMove.swift:159-172 | defines `capturesFirst`; characterised in `Search.CapturesFirstByValue` and `Search.CapturesBeforeQuietMoves` |
| Search.OrderMoves | kjchess/bestMove.swift:101 | defines the sort of the legal moves as an insertion sort by `capturesFirst`; stated in `Search.OrderMovesOrdered` and `Search.OrderMovesSorted` |
| Search.Minimax | kjchess/bestMove.swift:93-154 | defines plain minimax over the legal moves, the reference value of the search; bounded in `Search.MinimaxRange` |
| Search.AlphaBeta | kjchess/bestMove.swift:93-154 | defines `minimaxSearch` with its window; tied to `Search.Minimax` in `Search.AlphaBetaWindow` and `Search.AlphaBetaFullWindow`, its line in `Search.AlphaBetaLine`, computed by `Search.MinimaxSearch` |
| Search.WhiteLoop | kjchess/bestMove.swift:112-130 | defines White's loop with its cut-off; stated in `Search.WhiteLoopWindow` and `Search.WhiteLoopLine` |
| Search.BlackLoop | kjchess/bestMove.swift:132-150 | defines Black's loop with its cut-off; stated in `Search.BlackLoopWindow` and `Search.BlackLoopLine` |
| Search.RootLoop | kjchess/bestMove.swift:31-76 | defines the root accumulation of the best score and moves; stated in `Search.RootLoopScore`, `Search.RootLoopCandidates` and `Search.RootLoopComplete` |
| Search.CapturesFirstByValue | kjchess/bestMove.swift:159-172 | the ordering puts one move before another exactly when its captured material is worth more, counting a non-capture as worth nothing |
| Search.CapturesBeforeQuietMoves | kjchess/bestMove.swift:159-172 | a capture comes before any non-capture, a non-capture never comes before anything, and the ordering is asymmetric |
| Search.InsertOrdered | kjchess/bestMove.swift:101 | inserting a move into an ordered list keeps it ordered and adds exactly that move |
| Search.InsertInFront | kjchess/bestMove.swift:101 | a move worth at least the head of an ordered list can go in front of it |
| Search.InsertBehind | kjchess/bestMove.swift:101 | a move worth less than the head goes behind it, and the result is ordered and holds the same moves |
| Search.OrderMovesOrdered | kjchess/bestMove.swift:101 | sorting the moves yields an ordered permutation of them |
| Search.OrderMovesSorted | kjchess/bestMove.swift:101 | the sorted moves are a permutation of the legal moves in which no later move should come before an earlier one |
| Search.OrderedMovesLegal | kjchess/bestMove.swift:100-101 | every move of the sorted list is legal in the position |
| Search.Child | kjchess/bestMove.swift:115 | playing a move hands the turn to the opponent |
| Search.MinimaxRange | kjchess/bestMove.swift:93-154 | the minimax value lies between minus and plus infinity |
| Search.BestOverRange | kjchess/bestMove.swift:110-151 | the best value over a list of moves lies between minus and plus infinity |
| Search.BestOverIsBest | kjchess/bestMove.swift:110-151 | no move of the list does better for the side to move than the best value, the best value is no worse than the starting infinity, and for a non-empty list some move reaches it |
| Search.BestOverReordered | kjchess/bestMove.swift:20-21 | the best value does not depend on the order of the moves, so neither the shuffle nor the sort changes it |
| Search.AlphaBetaStep | kjchess/bestMove.swift:100-153 | at depth one or more the search sorts the legal moves and runs the loop of the side to move from the worst score for that side and an empty line |
| Search.AlphaBetaWindow | kjchess/bestMove.swift:93-154 | for any window inside minus and plus infinity, the alpha-beta score clamped to the window equals the minimax value clamped to the window |
| Search.WhiteLoopWindow | kjchess/bestMove.swift:112-130 | white's loop, with its raised lower bound and beta cut-off, gives the maximum of the best so far and the remaining moves' minimax values, up to the window |
| Search.WhiteStep | kjchess/bestMove.swift:122-129 | one pass of white's loop body keeps the window invariant, whether it cuts off or goes on |
| Search.BlackStep | kjchess/bestMove.swift:142-149 | one pass of black's loop body keeps the window invariant, whether it cuts off or goes on |
| Search.BlackLoopWindow | kjchess/bestMove.swift:132-150 | black's loop, with its lowered upper bound and alpha cut-off, gives the minimum of the best so far and the remaining moves' minimax values, up to the window |
| Search.AlphaBetaFullWindow | kjchess/bestMove.swift:38-41 | searched with the full window, as the root does, the score is exactly the minimax value |
| Search.AlphaBetaLeafCases | kjchess/bestMove.swift:96-98 | below depth one the search returns the evaluation and an empty line; with no legal moves it returns the worst score for the side to move and an empty line |
| Search.AlphaBetaLine | kjchess/bestMove.swift:104-145 | the principal variation is a sequence of moves each legal where it is played, no longer than the depth |
| Search.PrependLine | kjchess/bestMove.swift:124 | a legal move followed by a line from the position it leads to is a line |
| Search.WhiteLoopLine | kjchess/bestMove.swift:112-130 | white's loop keeps its line legal and within the depth |
| Search.BlackLoopLine | kjchess/bestMove.swift:132-150 | black's loop keeps its line legal and within the depth |
| Search.SearchPosition.Apply | kjchess/bestMove.swift:115 | applying a legal move moves the position on by that move and hands back the position to restore |
| Search.SearchPosition.Unapply | kjchess/bestMove.swift:120 | unapplying restores the saved position |
| Search.MinimaxSearch | kjchess/bestMove.swift:93-154 | the position is unchanged on return and the score and line are those of the alpha-beta definition |
| Search.SearchWhiteMoves | kjchess/bestMove.swift:112-130 | white's loop restores the position after each move and returns the score and line of its definition |
| Search.SearchBlackMoves | kjchess/bestMove.swift:132-150 | black's loop restores the position after each move and returns the score and line of its definition |
| Search.RootLoopScore | kjchess/bestMove.swift:31-76 | the root keeps the best score for the side to move over all searched moves |
| Search.RootLoopCandidates | kjchess/bestMove.swift:31-76 | the kept moves are empty exactly when there were no moves, and each kept move reaches the best score with a line starting with it |
| Search.RootLoopKeeps | kjchess/bestMove.swift:44-50 | while the best score does not change, the moves kept so far stay kept |
| Search.RootLoopComplete | kjchess/bestMove.swift:44-50 | every move whose value equals the final best score is among the kept moves |
| Search.SearchRootMoves | kjchess/bestMove.swift:31-76 | the root loop replaces the kept moves on a strictly better score and appends on an equal one, as its definition says |
| Search.RootOutcome | kjchess/bestMove.swift:31-78 | after the root loop the kept moves are empty exactly when there are no legal moves, the best score is the minimax value of the position one ply deeper, and each kept move is legal, reaches it, and has a legal line starting with it |
| Search.BestMove | kjchess/bestMove.swift:17-86 | no result exactly when there is no legal move; otherwise a legal move whose value is the best for the side to move, that score, and a legal line starting with that move |
| Search.MoveArray | kjchess/bestMove.swift:20 | the array holds the legal moves in order |
| Search.NoLegalMovesOnEmptyBoard | kjchess/bestMove.swift:20-21 | on an empty board there is no legal move, so the list handed to the shuffle is empty |
| CommandLine.ParseArguments | kjchess-cli/CommandLineParseResult.swift:217-328 | defines the recursive parse; stated in `CommandLine.ParseExtends` and the case lemmas below, and computed by `CommandLine.Parse` |
| CommandLine.ParseResultOf | kjchess-cli/CommandLineParseResult.swift:183-195 | defines the parse result of a whole command line; stated in `CommandLine.ProgramIsFirstArgument` and computed by `CommandLine.MakeParseResult` |
| CommandLine.FirstIndex | kjchess-cli/CommandLineParseResult.swift:231 | the index found is that of the first element meeting the test; none exactly when no element meets it |
| CommandLine.First | kjchess-cli/CommandLineParseResult.swift:199 | the element found is in the list and meets the test; none exactly when no element meets it |
| Separators.Components | kjchess-cli/CommandLineParseResult.swift:335 | splitting a string always yields at least one piece |
| Separators.ComponentsCount | kjchess-cli/CommandLineParseResult.swift:335-345 | splitting yields one more piece than the string has separators, and no piece holds a separator |
| Separators.JoinComponents | kjchess-cli/CommandLineParseResult.swift:335 | joining the pieces with the separator gives back the string |
| Separators.ComponentsCons | kjchess-cli/CommandLineParseResult.swift:335 | a leading non-separator character joins the first piece |
| Separators.ComponentsAfterPlain | kjchess-cli/CommandLineParseResult.swift:335 | a leading run without separators joins the first piece |
| Separators.ComponentsJoin | kjchess/FEN.swift:17-22 | splitting a join of separator-free pieces gives back the pieces; with '/' it is the rank half of the FEN round trip, with '=' the round trip of "name=value" |
| CommandLine.NameAndValue | kjchess-cli/CommandLineParseResult.swift:334-346 | two or more '=' are the multiple-'=' syntax error, and only they fail; without '=' the whole string is the name; with one '=' the name and value are the parts before and after it |
| CommandLine.NameAndValueRoundTrip | kjchess-cli/CommandLineParseResult.swift:334-346 | a name and value without '=' are split back out of name=value, and a lone name comes back with no value |
| CommandLine.ShortGroup | kjchess-cli/CommandLineParseResult.swift:277-321 | a successful pass over a letter group only consumes following arguments from the front and only adds options after those already gathered |
| CommandLine.ArgumentIterator.Next | kjchess-cli/CommandLineParseResult.swift:225 | the iterator hands out the first remaining argument and drops it, or nothing once it is empty |
| CommandLine.ArgumentIterator.constructor | kjchess-cli/CommandLineParseResult.swift:187 | a new iterator holds all the arguments |
| CommandLine.ParseShortGroup | kjchess-cli/CommandLineParseResult.swift:277-315 | the letter loop gathers the options, consumes the arguments and raises the errors of the letter-group definition |
| CommandLine.Parse | kjchess-cli/CommandLineParseResult.swift:217-328 | the recursive parse returns what the parse definition gives for the arguments left in the iterator, and a success has used all of them |
| CommandLine.MakeParseResult | kjchess-cli/CommandLineParseResult.swift:183-195 | the initialiser takes the first argument as the program name and parses the rest as the parse definition says |
| CommandLine.OptionNamed | kjchess-cli/CommandLineParseResult.swift:198-200 | the option returned is the first parsed option with that name; none exactly when no parsed option has it |
| CommandLine.ValueOf | kjchess-cli/CommandLineParseResult.swift:203-205 | the value is that of the first option with the name, and absent exactly when the option is |
| CommandLine.IsPresent | kjchess-cli/CommandLineParseResult.swift:208-215 | an option is present exactly when some parsed option has that name |
| CommandLine.HelpName | kjchess-cli/CommandLineParseResult.swift:60-67 | the help name ends in "--" and the name, and starts with "-", the letter and "/" exactly when there is a letter |
| CommandLine.HelpSyntax | kjchess-cli/CommandLineParseResult.swift:72-89 | the syntax ends in the long form, is only the long form without a letter, and starts with "-" and the letter when there is one |
| CommandLine.HelpSyntaxWithLetter | kjchess-cli/CommandLineParseResult.swift:75-84 | for an option with a letter the corrected syntax is exactly the one written |
| CommandLine.HelpSyntaxAsWritten | kjchess-cli/CommandLineParseResult.swift:72-89 | defines `helpSyntax` as written; compared with the documented text in `CommandLine.HelpSyntaxAsWrittenDiffers` |
| CommandLine.HelpSyntaxAsWrittenDiffers | kjchess-cli/CommandLineParseResult.swift:72-89 | with a letter the written syntax is the documented one; without a letter it has the length of the long form and equals it except that the first character is '=' where the long form has '-' |
| CommandLine.RecognisedAppend | kjchess-cli/CommandLineParseResult.swift:238-243 | adding a defined option with a value of its own kind keeps every gathered option recognised |
| CommandLine.ShortGroupRecognised | kjchess-cli/CommandLineParseResult.swift:281-315 | every option a letter group yields is defined and carries a value of its kind |
| CommandLine.ParseExtends | kjchess-cli/CommandLineParseResult.swift:217-328 | a successful parse keeps the options and arguments gathered so far as prefixes and adds only defined options with values of their kind, and every added argument was on the command line |
| CommandLine.ParseExtendsLong | kjchess-cli/CommandLineParseResult.swift:229-274 | the long-option branch keeps that property |
| CommandLine.PlainArgumentsInOrder | kjchess-cli/CommandLineParseResult.swift:323-327 | arguments that are not options are gathered in their order |
| CommandLine.PlainStep | kjchess-cli/CommandLineParseResult.swift:323-327 | an argument that does not start an option goes onto the argument list |
| CommandLine.LoneDash | kjchess-cli/CommandLineParseResult.swift:277-327 | a lone "-" is an ordinary argument |
| CommandLine.DoubleDash | kjchess-cli/CommandLineParseResult.swift:229-313 | a bare "--" is not a long option: it is read as the letter group "-" and fails as undefined unless some option has the letter '-' |
| CommandLine.LongArguments | kjchess-cli/CommandLineParseResult.swift:229-230 | "--" followed by a non-empty name, with or without =value, is a long option whose text after the dashes is the name part |
| CommandLine.LongUndefined | kjchess-cli/CommandLineParseResult.swift:272-274 | a long option with an unknown name fails as undefined, naming the whole argument |
| CommandLine.LongFlag | kjchess-cli/CommandLineParseResult.swift:233-244 | a long flag adds the option with no value, and giving it a value fails as value-not-allowed |
| CommandLine.LongStringInline | kjchess-cli/CommandLineParseResult.swift:246-256 | --name=value for a string option adds the option with that value |
| CommandLine.LongStringNext | kjchess-cli/CommandLineParseResult.swift:257-269 | --name for a string option takes the next argument as its value, and fails as missing-value when there is none |
| CommandLine.FlagOptions | kjchess-cli/CommandLineParseResult.swift:287-290 | a run of flag letters yields one no-value option per letter, in order |
| CommandLine.ShortGroupFlags | kjchess-cli/CommandLineParseResult.swift:281-290 | a run of flag letters inside a group adds their options and moves on |
| CommandLine.ShortGroupPrefix | kjchess-cli/CommandLineParseResult.swift:277-290 | the flag letters at the front of a group add their options before the rest of the group is read |
| CommandLine.ShortFlagGroup | kjchess-cli/CommandLineParseResult.swift:277-316 | a group of flag letters yields their options in order and consumes nothing more |
| CommandLine.ShortUnknownLetter | kjchess-cli/CommandLineParseResult.swift:312-314 | an unknown letter after flag letters fails as undefined, naming the whole argument |
| CommandLine.ShortLateString | kjchess-cli/CommandLineParseResult.swift:291-294 | a string option that is not the first letter of its group fails with the cannot-be-grouped message |
| CommandLine.ShortStringOption | kjchess-cli/CommandLineParseResult.swift:291-309 | a string option's letter takes the rest of the group as its value, else the next argument, and fails as missing-value when there is neither |
| CommandLine.ProgramIsFirstArgument | kjchess-cli/CommandLineParseResult.swift:183-195 | with no arguments there is no program name and nothing parsed; otherwise the first argument is the program name, parsing succeeds exactly when parsing the rest does, every option is defined and every argument came from the rest |
| CommandLine.LongSyntaxParses | kjchess-cli/CommandLineParseResult.swift:72-89 | the long form a help line shows parses back as that option with its example value |
| CommandLine.ShortSyntaxParses | kjchess-cli/CommandLineParseResult.swift:72-89 | the letter form a help line shows parses back as that option with its example value |
| CommandLine.HelpSyntaxAsWrittenIsPlain | kjchess-cli/CommandLineParseResult.swift:78-79 | the help syntax written for an option without a letter is read as an ordinary argument, not as the option |
| CommandLine.HelpSyntaxCounterexample | kjchess-cli/CommandLineParseResult.swift:78-79 | for the flag quiet with no letter the written syntax is "=-quiet", which parses as a plain argument, while "--quiet" parses as the flag |
| CommandLine.HelpSyntaxParses | kjchess-cli/CommandLineParseResult.swift:72-89 | for an option without a letter the corrected help syntax parses back as that option with its example value |

## Left out

- Input and output: the UCI command loop (`kjchess/UCIEngine.swift`), the command-line `main`, logging, and `printHelp` are not part of this model.
- The concurrent fan-out of `bestMove` over dispatch queues, groups and semaphores: the root moves are searched one after the other, and the accumulation of the best score and moves is modelled as a sequential loop.
- Floating point: scores are whole hundredths of a pawn as `int` (every constant in the tables is one), and plus and minus infinity are the sentinels `Search.Infinity` and its negation.
- Search.AlphaBetaWindow: stated only for windows inside `-Infinity .. Infinity`, the only windows the root passes in.
- Search.OrderMoves: the sort by `capturesFirst` is modelled as one particular stable insertion sort. Swift's `sort` may order equally good moves differently. The order only affects which of equally scored moves and lines is found first, and `Search.BestOverReordered` shows it cannot change the score.
- Search position: the `inout` position of `minimaxSearch` is a class holding a `Position`. `Apply` moves it on with `Positions.After`, and `Unapply` restores the saved position. The in-place board undo is proved on its own, in `Boards.Board.Apply`, `Boards.Board.Unapply` and `Boards.UnapplyAfterApply`.
- Randomness: `arc4random_uniform` is a nondeterministic choice in `ArrayUtils.ShuffleSteps` and a `draw` parameter of `ArrayUtils.RandomPick`. No distribution is modelled.
- `kjchess/Evaluation.swift` is a superseded duplicate of `kjchess/evaluate.swift` with a different king value. It is not part of this model.
- `kjchess/Position_generateMoves.swift` is a superseded, partial generator, and `kjchess/PieceConstants.swift` duplicates the constants of `kjchess/Piece.swift`. Neither is part of this model.
- `kjchess/Position.swift` defines no six-field position FEN and no position-level `apply`/`unapply`, yet the tests and `kjchess/bestMove.swift:115-140` call `position.apply` and `position.unapply`. The model replaces them with `Positions.After`, and the search moves a `Search.SearchPosition` on and back by snapshots (see the search position line above).
- Error messages: `ChessErrors.ChessError` keeps the error cases only. The no-matching-moves case also carries the requested promotion kind, as `kjchess/Position_after_coordinateMove.swift:68` passes it, although the enum in `kjchess/ChessError.swift` has only two fields.
- Display text: `Move.description`, the long algebraic form, `Location.description` and `Piece.figurine` are not modelled.
- Castling rights and en-passant target: `Position.swift` has neither, but `Position_legalMoves.swift` reads both. The model adds them to `Positions.Position` and updates them in `Positions.After`. The tests show only two things: castling removes both of the mover's rights, and a double push sets the skipped square as the target. The other rules are the model's own: any king move clears both of the mover's rights, and a move that leaves or lands on a rook's home square clears that right. They are stated in `Positions.CastlingAfter` and `Positions.ClearIfRookSquare`.
- Board squares: `Board.swift` stores an `.empty` sentinel in parallel player and kind arrays, while the move generator and FEN code treat squares as optional. The model uses one representation, `Option<Piece>` per square.
- Legality.IsLegal: a king retreating along the line of a checking slider is accepted, because a king move is judged on the board before the move, where the king still blocks the ray. The model states this as the code computes it, and `Legality.KingRetreatOnCheckingLine` exhibits it. It claims no "legal moves never leave the king attacked" property.
- Strings are sequences of `char`: the Swift string helpers (`String_CharacterView_at.swift`, `String_whitespaceSeparatedTokens.swift`, `substring(fromOffset:)`) become sequence indexing and slicing, with no Unicode grapheme clustering.
- CommandLine.NameAndValue: the count-0 branch of `parseNameAndValue`, whose message is "empty argument", cannot be reached, because splitting a string always yields at least one piece (`Separators.Components`). The model has no such case.
- CommandLine.Parse: after an error, the contract says nothing about how far the argument iterator has advanced.
- Fen.ParseFenBoard: as in the source, a board whose ranks do not each hold eight squares is not rejected. `Fen.FenBoardRanks` states what the result is when every rank is eight squares wide.
- ArrayUtils.AppendRepeating: a negative count is excluded by its precondition, because the Swift range `0..<count` traps on it.

## Findings

| source | as written | input that shows it | evidently intended | confidence | as-written member | corrected member |
|---|---|---|---|---|---|---|
| kjchess/Array_shuffle.swift:13 | `shuffle` loops over `0..<(count - 1)`, a range that traps when the array is empty; `bestMove` (kjchess/bestMove.swift:20-21) shuffles the legal moves, which may be empty | a position with no legal move, such as White to move on an empty board (`Search.NoLegalMovesOnEmptyBoard`) | no swaps for an empty array, so that `bestMove` returns nil when there is no legal move | not executed | ArrayUtils.ShuffleAsWritten | ArrayUtils.Shuffle |
| kjchess-cli/CommandLineParseResult.swift:78-86 | `helpSyntax` of an option without a letter begins "=-" instead of "--" | the flag "quiet" without a letter: the help shows "=-quiet", which parses as a plain argument (`CommandLine.HelpSyntaxCounterexample`) | "--quiet" and "--name=ARG", the long forms the parser accepts | not executed | CommandLine.HelpSyntaxAsWritten | CommandLine.HelpSyntax |
