/// Pseudo-legal move generation (kjchess/Position_legalMoves.swift,
/// `possibleMoves` and the `add*Moves` generators): every move a piece of
/// the side to move can make, before checking that the king is safe.
///
/// Each generator is specified by a function that lists the moves in the
/// order the Swift code appends them, and implemented by a method with the
/// Swift loops, proved to append exactly that list.
module MoveGeneration {
  import opened Wrappers
  import opened Players
  import opened Pieces
  import opened Locations
  import opened Moves
  import opened Castling
  import opened Boards
  import opened Positions
  import opened ArrayUtils

  /// A step or direction (file delta, rank delta).
  type Vector = (int, int)

  const KnightJumps: seq<Vector> := [(1, 2), (1, -2), (-1, 2), (-1, -2), (2, 1), (2, -1), (-2, 1), (-2, -1)]
  const RookVectors: seq<Vector> := [(1, 0), (-1, 0), (0, 1), (0, -1)]
  const BishopVectors: seq<Vector> := [(1, 1), (-1, 1), (1, -1), (-1, -1)]
  const EightDirections: seq<Vector> := [(1, 0), (-1, 0), (0, 1), (0, -1), (1, 1), (-1, 1), (1, -1), (-1, -1)]

  /// The two diagonal steps a pawn captures with.
  function PawnCaptureVectors(p: Player): seq<Vector>
  {
    if p == White then [(-1, 1), (1, 1)] else [(-1, -1), (1, -1)]
  }

  function PromotionRank(p: Player): Coord
  {
    if p == White then 7 else 0
  }

  function StartRank(p: Player): Coord
  {
    if p == White then 1 else 6
  }

  /// A direction a slider can move in.
  predicate UnitVector(d: Vector)
  {
    -1 <= d.0 <= 1 && -1 <= d.1 <= 1 && d != (0, 0)
  }

  predicate UnitVectors(ds: seq<Vector>)
  {
    forall i :: 0 <= i < |ds| ==> UnitVector(ds[i])
  }

  /// How many more steps a ray from (file, rank) in direction d can take
  /// before it leaves the board, at most.
  function RayMeasure(file: int, rank: int, d: Vector): nat
  {
    (if d.0 > 0 && file <= 8 then 8 - file else if d.0 < 0 && file >= -1 then file + 1 else 0)
    + (if d.1 > 0 && rank <= 8 then 8 - rank else if d.1 < 0 && rank >= -1 then rank + 1 else 0)
  }

  /// A step from a square on the board brings a ray closer to its edge.
  lemma RayMeasureDecreases(file: int, rank: int, d: Vector)
    requires UnitVector(d) && IsValid(file, rank)
    ensures RayMeasure(file + d.0, rank + d.1, d) < RayMeasure(file, rank, d)
  {
  }

  /// A generated move fits the board it was generated on: the mover is the
  /// piece's owner, it starts on the piece's square, and the board agrees
  /// with what the move records (see `Boards.Consistent`), so in particular
  /// it never lands on one of the mover's own pieces.
  predicate Sound(b: Squares, piece: Piece, from: Location, m: Move)
  {
    Mover(m) == piece.player && From(m) == from && Consistent(b, m)
  }

  /// The move onto one target square for a knight or king: a quiet move onto
  /// an empty square, a capture of an opposing piece, nothing onto an own
  /// piece or off the board.
  function StepTarget(b: Squares, piece: Piece, from: Location, d: Vector): seq<Move>
  {
    match IfValid(from.file + d.0, from.rank + d.1)
    case None => []
    case Some(t) =>
      match At(b, t)
      case Some(occupant) =>
        if occupant.player != piece.player then [Capture(piece, from, t, occupant.kind)] else []
      case None => [Move(piece, from, t)]
  }

  /// Knight and king steps, one vector after the other.
  function StepMoves(b: Squares, piece: Piece, from: Location, ds: seq<Vector>): seq<Move>
  {
    if |ds| == 0 then [] else StepTarget(b, piece, from, ds[0]) + StepMoves(b, piece, from, ds[1..])
  }

  /// The moves of a slider along one ray, starting at (file, rank): a quiet
  /// move per empty square, then a capture if the first occupied square
  /// holds an opposing piece, and nothing beyond it.
  function SlideRay(b: Squares, piece: Piece, from: Location, d: Vector, file: int, rank: int): seq<Move>
    requires UnitVector(d)
    decreases RayMeasure(file, rank, d)
  {
    match IfValid(file, rank)
    case None => []
    case Some(t) =>
      match At(b, t)
      case Some(occupant) =>
        if occupant.player != piece.player then [Capture(piece, from, t, occupant.kind)] else []
      case None => [Move(piece, from, t)] + SlideRay(b, piece, from, d, file + d.0, rank + d.1)
  }

  /// The rays of the vectors `ds[i..]`, in order.
  function SlideRays(b: Squares, piece: Piece, from: Location, ds: seq<Vector>, i: int): seq<Move>
    requires UnitVectors(ds) && 0 <= i <= |ds|
    decreases |ds| - i
  {
    if i == |ds| then []
    else SlideRay(b, piece, from, ds[i], from.file + ds[i].0, from.rank + ds[i].1) + SlideRays(b, piece, from, ds, i + 1)
  }

  /// `addSlideMoves`: the rays in the order of the vectors.
  function SlideMoves(b: Squares, piece: Piece, from: Location, ds: seq<Vector>): seq<Move>
    requires UnitVectors(ds)
  {
    SlideRays(b, piece, from, ds, 0)
  }

  /// The four promotions of a pawn moving from `from` to `to`, in the order
  /// of `promotionKinds`.
  function Promotions(p: Player, from: Location, to: Location): (r: seq<Move>)
    ensures |r| == 4
    ensures forall i :: 0 <= i < 4 ==> r[i] == Promote(p, from, to, PromotionKinds[i])
  {
    seq(4, i requires 0 <= i < 4 => Promote(p, from, to, PromotionKinds[i]))
  }

  /// The four promotions of a pawn capturing `captured` on `to`.
  function PromotionCaptures(p: Player, from: Location, to: Location, captured: PieceKind): (r: seq<Move>)
    ensures |r| == 4
    ensures forall i :: 0 <= i < 4 ==> r[i] == PromoteCapture(p, from, to, captured, PromotionKinds[i])
  {
    seq(4, i requires 0 <= i < 4 => PromoteCapture(p, from, to, captured, PromotionKinds[i]))
  }

  /// Forward moves of a pawn that is not on the first or last rank: one
  /// step onto an empty square (four promotions on the last rank), and from
  /// the start rank a second step onto an empty square.
  function PawnPushes(b: Squares, piece: Piece, from: Location): seq<Move>
    requires 0 < from.rank < 7
  {
    var p := piece.player;
    var next := from.rank + PawnDirection(p);
    if IsEmpty(b, Location(from.file, next)) then
      var to := Location(from.file, next);
      if to.rank == PromotionRank(p) then Promotions(p, from, to)
      else
        [Move(piece, from, to)]
        + (if from.rank == StartRank(p) && IsEmpty(b, Location(from.file, StartRank(p) + 2 * PawnDirection(p)))
           then [Move(piece, from, Location(from.file, StartRank(p) + 2 * PawnDirection(p)))]
           else [])
    else []
  }

  /// A pawn's capture along one diagonal: of an opposing piece (four
  /// promotion captures on the last rank), or en passant onto the empty
  /// target square.
  function PawnCapture(pos: Position, piece: Piece, from: Location, d: Vector): seq<Move>
  {
    var p := piece.player;
    match IfValid(from.file + d.0, from.rank + d.1)
    case None => []
    case Some(c) =>
      match At(pos.board, c)
      case Some(occupant) =>
        if occupant.player == Opponent(p) then
          if c.rank == PromotionRank(p) then PromotionCaptures(p, from, c, occupant.kind)
          else [Capture(piece, from, c, occupant.kind)]
        else []
      case None =>
        if pos.enPassant == Some(c) then [EnPassantCapture(p, from, c)] else []
  }

  /// The captures along the diagonals `ds[i..]`, in order.
  function PawnCaptures(pos: Position, piece: Piece, from: Location, ds: seq<Vector>, i: int): seq<Move>
    requires 0 <= i <= |ds|
    decreases |ds| - i
  {
    if i == |ds| then [] else PawnCapture(pos, piece, from, ds[i]) + PawnCaptures(pos, piece, from, ds, i + 1)
  }

  /// `addPawnMoves`: nothing for a pawn on the first or last rank.
  function PawnMoves(pos: Position, piece: Piece, from: Location): seq<Move>
  {
    if 0 < from.rank < 7 then
      PawnPushes(pos.board, piece, from) + PawnCaptures(pos, piece, from, PawnCaptureVectors(piece.player), 0)
    else []
  }

  /// Kingside castling for `p`: the right is held, king and rook are at home
  /// and the two squares between them are empty.
  predicate CanCastleKingside(pos: Position, p: Player)
  {
    var r := HomeRank(p);
    Contains(pos.castling, KingsideFlag(p))
    && At(pos.board, Location(4, r)) == Some(Piece(p, King))
    && At(pos.board, Location(5, r)) == None
    && At(pos.board, Location(6, r)) == None
    && At(pos.board, Location(7, r)) == Some(Piece(p, Rook))
  }

  /// Queenside castling for `p`: the right is held, king and rook are at
  /// home and the three squares between them are empty.
  predicate CanCastleQueenside(pos: Position, p: Player)
  {
    var r := HomeRank(p);
    Contains(pos.castling, QueensideFlag(p))
    && At(pos.board, Location(4, r)) == Some(Piece(p, King))
    && At(pos.board, Location(3, r)) == None
    && At(pos.board, Location(2, r)) == None
    && At(pos.board, Location(1, r)) == None
    && At(pos.board, Location(0, r)) == Some(Piece(p, Rook))
  }

  function CastlingMoves(pos: Position, p: Player): seq<Move>
  {
    OptionalPair(CanCastleKingside(pos, p), CastleKingside(p), CanCastleQueenside(pos, p), CastleQueenside(p))
  }

  /// `x` if `a`, followed by `y` if `b`.
  function OptionalPair(a: bool, x: Move, b: bool, y: Move): (s: seq<Move>)
    ensures x != y ==> (x in s <==> a) && (y in s <==> b)
    ensures forall m :: m in s ==> (m == x && a) || (m == y && b)
  {
    if a && b then [x, y] else if a then [x] else if b then [y] else []
  }

  /// `addKingMoves`: the eight steps, then castling.
  function KingMoves(pos: Position, piece: Piece, from: Location): seq<Move>
  {
    StepMoves(pos.board, piece, from, EightDirections) + CastlingMoves(pos, piece.player)
  }

  /// `addMoves`: dispatch on the kind of piece.
  function PieceMoves(pos: Position, piece: Piece, from: Location): seq<Move>
  {
    match piece.kind
    case Pawn => PawnMoves(pos, piece, from)
    case Knight => StepMoves(pos.board, piece, from, KnightJumps)
    case Rook => SlideMoves(pos.board, piece, from, RookVectors)
    case Bishop => SlideMoves(pos.board, piece, from, BishopVectors)
    case Queen => SlideMoves(pos.board, piece, from, EightDirections)
    case King => KingMoves(pos, piece, from)
  }

  /// The moves of the pieces `ps`, one piece after the other.
  function MovesOfPieces(pos: Position, ps: seq<(Piece, Location)>): seq<Move>
  {
    if |ps| == 0 then [] else MovesOfPieces(pos, ps[..|ps| - 1]) + PieceMoves(pos, ps[|ps| - 1].0, ps[|ps| - 1].1)
  }

  /// `possibleMoves`: the moves of the side to move's pieces, in square
  /// order.
  function PossibleMoves(pos: Position): seq<Move>
  {
    MovesOfPieces(pos, PiecesOf(pos.board, pos.toMove))
  }

  // What the generators promise: every move they produce fits the board
  // (`Sound`), pawns move as the rules say, and castling is offered exactly
  // when its conditions hold.

  /// A step target is a quiet move onto an empty square or a capture of an
  /// opposing piece, on the square `d` away.
  lemma StepTargetSound(b: Squares, piece: Piece, from: Location, d: Vector)
    requires At(b, from) == Some(piece) && d != (0, 0)
    ensures forall m :: m in StepTarget(b, piece, from, d) ==>
      Sound(b, piece, from, m) && (m.Move? || m.Capture?) && m.piece == piece
      && To(m).file == from.file + d.0 && To(m).rank == from.rank + d.1
  {
  }

  /// Knight and king steps are quiet moves onto empty squares or captures
  /// of opposing pieces, each landing one of the listed vectors away.
  lemma {:induction false} StepMovesSound(b: Squares, piece: Piece, from: Location, ds: seq<Vector>)
    requires At(b, from) == Some(piece)
    requires forall i :: 0 <= i < |ds| ==> ds[i] != (0, 0)
    ensures forall m :: m in StepMoves(b, piece, from, ds) ==>
      Sound(b, piece, from, m) && (m.Move? || m.Capture?) && m.piece == piece
    ensures forall m :: m in StepMoves(b, piece, from, ds) ==>
      exists i :: 0 <= i < |ds| && To(m).file == from.file + ds[i].0 && To(m).rank == from.rank + ds[i].1
  {
    if |ds| > 0 {
      StepTargetSound(b, piece, from, ds[0]);
      StepMovesSound(b, piece, from, ds[1..]);
      forall m | m in StepMoves(b, piece, from, ds)
        ensures exists i :: 0 <= i < |ds| && To(m).file == from.file + ds[i].0 && To(m).rank == from.rank + ds[i].1
      {
        if m in StepTarget(b, piece, from, ds[0]) {
          assert To(m).file == from.file + ds[0].0 && To(m).rank == from.rank + ds[0].1;
        } else {
          var i :| 0 <= i < |ds[1..]| && To(m).file == from.file + ds[1..][i].0 && To(m).rank == from.rank + ds[1..][i].1;
          assert ds[1..][i] == ds[i + 1];
        }
      }
    }
  }

  /// Prepending one more sound quiet move or capture of the piece keeps a
  /// list of them sound.
  lemma PrependSound(b: Squares, piece: Piece, from: Location, x: Move, s: seq<Move>)
    requires Sound(b, piece, from, x) && (x.Move? || x.Capture?) && x.piece == piece
    requires forall m :: m in s ==> Sound(b, piece, from, m) && (m.Move? || m.Capture?) && m.piece == piece
    ensures forall m :: m in [x] + s ==> Sound(b, piece, from, m) && (m.Move? || m.Capture?) && m.piece == piece
  {
  }

  /// A ray holds quiet moves onto empty squares and captures of opposing
  /// pieces, all by the slider from its own square.
  lemma {:induction false} SlideRaySound(b: Squares, piece: Piece, from: Location, d: Vector, file: int, rank: int)
    requires UnitVector(d) && At(b, from) == Some(piece)
    ensures forall m :: m in SlideRay(b, piece, from, d, file, rank) ==>
      Sound(b, piece, from, m) && (m.Move? || m.Capture?) && m.piece == piece
    decreases RayMeasure(file, rank, d)
  {
    match IfValid(file, rank)
    case None =>
    case Some(t) =>
      if At(b, t).None? {
        SlideRayEmptyStep(b, piece, from, d, file, rank);
        SlideRaySound(b, piece, from, d, file + d.0, rank + d.1);
        var step := Move(piece, from, t);
        var rest := SlideRay(b, piece, from, d, file + d.0, rank + d.1);
        assert Sound(b, piece, from, step);
        PrependSound(b, piece, from, step, rest);
      } else {
        SlideRayOccupied(b, piece, from, d, file, rank);
      }
  }

  /// Only the last move of a ray can be a capture: the slider stops at the
  /// first occupied square.
  lemma {:induction false} SlideRayStopsAtCapture(b: Squares, piece: Piece, from: Location, d: Vector, file: int, rank: int)
    requires UnitVector(d)
    ensures forall i :: 0 <= i < |SlideRay(b, piece, from, d, file, rank)| - 1 ==>
      SlideRay(b, piece, from, d, file, rank)[i].Move? && IsEmpty(b, SlideRay(b, piece, from, d, file, rank)[i].to)
    decreases RayMeasure(file, rank, d)
  {
    match IfValid(file, rank)
    case None =>
    case Some(t) =>
      if At(b, t).None? {
        SlideRayStopsAtCapture(b, piece, from, d, file + d.0, rank + d.1);
        var rest := SlideRay(b, piece, from, d, file + d.0, rank + d.1);
        var r := SlideRay(b, piece, from, d, file, rank);
        assert r == [Move(piece, from, t)] + rest;
        forall i | 0 <= i < |r| - 1
          ensures r[i].Move? && IsEmpty(b, r[i].to)
        {
          if i > 0 {
            assert r[i] == rest[i - 1];
          } else {
            assert r[0] == Move(piece, from, t);
          }
        }
      }
  }

  lemma {:induction false} SlideRaysSound(b: Squares, piece: Piece, from: Location, ds: seq<Vector>, i: int)
    requires UnitVectors(ds) && 0 <= i <= |ds| && At(b, from) == Some(piece)
    ensures forall m :: m in SlideRays(b, piece, from, ds, i) ==>
      Sound(b, piece, from, m) && (m.Move? || m.Capture?) && m.piece == piece
    decreases |ds| - i
  {
    if i < |ds| {
      SlideRaySound(b, piece, from, ds[i], from.file + ds[i].0, from.rank + ds[i].1);
      SlideRaysSound(b, piece, from, ds, i + 1);
    }
  }

  /// The square `j` steps from (file, rank) in direction `d`.
  function Along(file: int, rank: int, d: Vector, j: nat): (int, int)
    decreases j
  {
    if j == 0 then (file, rank) else Along(file + d.0, rank + d.1, d, j - 1)
  }

  /// Going `j` steps is one step, then `j - 1` more.
  lemma AlongStep(file: int, rank: int, d: Vector, j: nat)
    requires j > 0
    ensures Along(file, rank, d, j) == Along(file + d.0, rank + d.1, d, j - 1)
  {
  }

  /// The `j`-th square along a direction is `j` times the vector away.
  lemma {:induction false} AlongClosedForm(file: int, rank: int, d: Vector, j: nat)
    ensures Along(file, rank, d, j) == (file + j * d.0, rank + j * d.1)
    decreases j
  {
    if j > 0 {
      AlongClosedForm(file + d.0, rank + d.1, d, j - 1);
    }
  }

  /// Square `s` is on the board and empty.
  predicate EmptySquare(b: Squares, s: (int, int))
  {
    IfValid(s.0, s.1).Some? && At(b, IfValid(s.0, s.1).value).None?
  }

  /// Square `s` is on the board and holds a piece of the other side.
  predicate OpposingPieceOn(b: Squares, piece: Piece, s: (int, int))
  {
    IfValid(s.0, s.1).Some? && At(b, IfValid(s.0, s.1).value).Some?
    && At(b, IfValid(s.0, s.1).value).value.player != piece.player
  }

  /// `m` is the slider's quiet move from `from` onto square `s`.
  predicate QuietMoveOnto(m: Move, piece: Piece, from: Location, s: (int, int))
  {
    m.Move? && m.piece == piece && m.from == from && m.to.file == s.0 && m.to.rank == s.1
  }

  /// `m` is the slider's capture from `from` on square `s`.
  predicate CaptureOnto(m: Move, piece: Piece, from: Location, s: (int, int))
  {
    m.Capture? && m.piece == piece && m.from == from && m.to.file == s.0 && m.to.rank == s.1
  }

  /// The `i`-th move of a ray lands `i` steps along it.
  lemma {:induction false} SlideRayAlong(b: Squares, piece: Piece, from: Location, d: Vector, file: int, rank: int)
    requires UnitVector(d)
    ensures forall i :: 0 <= i < |SlideRay(b, piece, from, d, file, rank)| ==>
      (To(SlideRay(b, piece, from, d, file, rank)[i]).file, To(SlideRay(b, piece, from, d, file, rank)[i]).rank)
        == Along(file, rank, d, i)
    decreases RayMeasure(file, rank, d)
  {
    var ray := SlideRay(b, piece, from, d, file, rank);
    match IfValid(file, rank)
    case None =>
    case Some(t) =>
      if At(b, t).None? {
        SlideRayEmptyStep(b, piece, from, d, file, rank);
        SlideRayAlong(b, piece, from, d, file + d.0, rank + d.1);
        var rest := SlideRay(b, piece, from, d, file + d.0, rank + d.1);
        assert ray == [Move(piece, from, t)] + rest;
        forall i | 0 <= i < |ray|
          ensures (To(ray[i]).file, To(ray[i]).rank) == Along(file, rank, d, i)
        {
          if i > 0 {
            assert ray[i] == rest[i - 1];
            assert Along(file, rank, d, i) == Along(file + d.0, rank + d.1, d, i - 1);
          }
        }
      } else {
        SlideRayOccupied(b, piece, from, d, file, rank);
      }
  }

  /// The `i`-th move of the ray whose first square is (file, rank) lands at
  /// (file + i * d.0, rank + i * d.1).
  lemma SlideRayGeometry(b: Squares, piece: Piece, from: Location, d: Vector, file: int, rank: int)
    requires UnitVector(d)
    ensures forall i :: 0 <= i < |SlideRay(b, piece, from, d, file, rank)| ==>
      (To(SlideRay(b, piece, from, d, file, rank)[i]).file, To(SlideRay(b, piece, from, d, file, rank)[i]).rank)
        == Along(file, rank, d, i)
    ensures forall i :: 0 <= i < |SlideRay(b, piece, from, d, file, rank)| ==>
      To(SlideRay(b, piece, from, d, file, rank)[i]).file == file + i * d.0
      && To(SlideRay(b, piece, from, d, file, rank)[i]).rank == rank + i * d.1
  {
    var ray := SlideRay(b, piece, from, d, file, rank);
    SlideRayAlong(b, piece, from, d, file, rank);
    forall i | 0 <= i < |ray|
      ensures To(ray[i]).file == file + i * d.0 && To(ray[i]).rank == rank + i * d.1
    {
      AlongClosedForm(file, rank, d, i);
    }
  }

  /// A ray whose first square is not an empty one is empty, or the one
  /// capture of the opposing piece standing there.
  lemma SlideRayFirst(b: Squares, piece: Piece, from: Location, d: Vector, file: int, rank: int)
    requires UnitVector(d)
    ensures !EmptySquare(b, (file, rank)) ==>
      |SlideRay(b, piece, from, d, file, rank)| == (if OpposingPieceOn(b, piece, (file, rank)) then 1 else 0)
    ensures OpposingPieceOn(b, piece, (file, rank)) ==>
      0 < |SlideRay(b, piece, from, d, file, rank)| && CaptureOnto(SlideRay(b, piece, from, d, file, rank)[0], piece, from, (file, rank))
  {
    match IfValid(file, rank)
    case None =>
    case Some(t) =>
      if At(b, t).Some? {
        SlideRayOccupied(b, piece, from, d, file, rank);
      }
  }

  /// A ray is exactly a quiet move onto each empty square in turn until the
  /// first square that is off the board or occupied, then a capture there
  /// if that square holds an opposing piece: for `k` empty squares in a
  /// row, the first `k` moves go onto them, and when square `k` is not an
  /// empty one the ray ends there.
  lemma {:induction false} SlideRayExact(b: Squares, piece: Piece, from: Location, d: Vector, file: int, rank: int, k: nat)
    requires UnitVector(d)
    requires forall j :: 0 <= j < k ==> EmptySquare(b, Along(file, rank, d, j))
    ensures k <= |SlideRay(b, piece, from, d, file, rank)|
    ensures forall j :: 0 <= j < k ==>
      QuietMoveOnto(SlideRay(b, piece, from, d, file, rank)[j], piece, from, Along(file, rank, d, j))
    ensures !EmptySquare(b, Along(file, rank, d, k)) ==>
      |SlideRay(b, piece, from, d, file, rank)| == k + (if OpposingPieceOn(b, piece, Along(file, rank, d, k)) then 1 else 0)
    ensures OpposingPieceOn(b, piece, Along(file, rank, d, k)) ==>
      k < |SlideRay(b, piece, from, d, file, rank)|
      && CaptureOnto(SlideRay(b, piece, from, d, file, rank)[k], piece, from, Along(file, rank, d, k))
    decreases k
  {
    var ray := SlideRay(b, piece, from, d, file, rank);
    if k == 0 {
      SlideRayFirst(b, piece, from, d, file, rank);
    } else {
      assert EmptySquare(b, Along(file, rank, d, 0));
      var t := IfValid(file, rank).value;
      SlideRayEmptyStep(b, piece, from, d, file, rank);
      var nextFile, nextRank := file + d.0, rank + d.1;
      var rest := SlideRay(b, piece, from, d, nextFile, nextRank);
      forall j | 0 <= j < k - 1
        ensures EmptySquare(b, Along(nextFile, nextRank, d, j))
      {
        AlongStep(file, rank, d, j + 1);
      }
      SlideRayExact(b, piece, from, d, nextFile, nextRank, k - 1);
      AlongStep(file, rank, d, k);
      assert ray == [Move(piece, from, t)] + rest;
      forall j | 0 <= j < k
        ensures QuietMoveOnto(ray[j], piece, from, Along(file, rank, d, j))
      {
        if j > 0 {
          assert ray[j] == rest[j - 1];
          AlongStep(file, rank, d, j);
        }
      }
    }
  }

  /// `m` lands one or more steps from `from` along one of `ds[lo..]`.
  ghost predicate LandsAlong(m: Move, from: Location, ds: seq<Vector>, lo: int)
  {
    exists j: nat, k: nat :: lo <= j < |ds| && 1 <= k && (To(m).file, To(m).rank) == Along(from.file, from.rank, ds[j], k)
  }

  /// Every move of a slider lands some whole number of steps along one of
  /// its directions.
  lemma {:induction false} SlideRaysGeometry(b: Squares, piece: Piece, from: Location, ds: seq<Vector>, i: int)
    requires UnitVectors(ds) && 0 <= i <= |ds|
    ensures forall m :: m in SlideRays(b, piece, from, ds, i) ==> LandsAlong(m, from, ds, i)
    decreases |ds| - i
  {
    if i < |ds| {
      var d := ds[i];
      var ray := SlideRay(b, piece, from, d, from.file + d.0, from.rank + d.1);
      SlideRayAlong(b, piece, from, d, from.file + d.0, from.rank + d.1);
      SlideRaysGeometry(b, piece, from, ds, i + 1);
      forall m | m in SlideRays(b, piece, from, ds, i)
        ensures LandsAlong(m, from, ds, i)
      {
        if m in ray {
          var n :| 0 <= n < |ray| && ray[n] == m;
          assert Along(from.file, from.rank, d, n + 1) == Along(from.file + d.0, from.rank + d.1, d, n);
          assert (To(m).file, To(m).rank) == Along(from.file, from.rank, ds[i], n + 1);
        } else {
          assert m in SlideRays(b, piece, from, ds, i + 1);
          var j: nat, k: nat :| i + 1 <= j < |ds| && 1 <= k && (To(m).file, To(m).rank) == Along(from.file, from.rank, ds[j], k);
        }
      }
    }
  }

  /// Pawn pushes: straight ahead onto empty squares, one square, or two
  /// from the start rank over an empty square; a push onto the last rank
  /// is always one of the four promotions and never a plain move.
  lemma PawnPushesSound(b: Squares, piece: Piece, from: Location)
    requires 0 < from.rank < 7 && At(b, from) == Some(piece) && piece.kind == Pawn
    ensures forall m :: m in PawnPushes(b, piece, from) ==>
      Sound(b, piece, from, m) && (m.Move? || m.Promote?) && To(m).file == from.file && IsEmpty(b, To(m))
      && (m.Promote? <==> To(m).rank == PromotionRank(piece.player))
      && (To(m).rank == from.rank + PawnDirection(piece.player)
          || (To(m).rank == from.rank + 2 * PawnDirection(piece.player) && from.rank == StartRank(piece.player)
              && IsEmpty(b, Location(from.file, from.rank + PawnDirection(piece.player)))))
  {
  }

  /// A two-square pawn push leaves as the en-passant target the square the
  /// pawn skipped: on its file, on the third rank from the mover's side,
  /// empty, with the pushed pawn just beyond it for the opponent to take.
  lemma DoublePushTarget(pos: Position, piece: Piece, from: Location, m: Move)
    requires 0 < from.rank < 7 && At(pos.board, from) == Some(piece) && piece.kind == Pawn && piece.player == pos.toMove
    requires m in PawnPushes(pos.board, piece, from) && To(m).rank == from.rank + 2 * PawnDirection(piece.player)
    ensures Mover(m) == pos.toMove && Applicable(m)
    ensures Positions.After(pos, m).enPassant.Some?
    ensures Positions.After(pos, m).enPassant.value.file == from.file
    ensures Positions.After(pos, m).enPassant.value.rank == (if piece.player == White then 2 else 5)
    ensures IsEmpty(Positions.After(pos, m).board, Positions.After(pos, m).enPassant.value)
    ensures EnPassantSound(Positions.After(pos, m))
  {
    PawnPushesSound(pos.board, piece, from);
    AtSetAll();
    AfterKeepsEnPassantSound(pos, m);
  }

  /// The promotions of a push are exactly one per promotion kind.
  lemma PawnPushPromotions(b: Squares, piece: Piece, from: Location)
    requires 0 < from.rank < 7
    requires from.rank + PawnDirection(piece.player) == PromotionRank(piece.player)
    requires IsEmpty(b, Location(from.file, PromotionRank(piece.player)))
    ensures var r := PawnPushes(b, piece, from);
      |r| == 4 && forall i :: 0 <= i < 4 ==>
        r[i] == Promote(piece.player, from, Location(from.file, PromotionRank(piece.player)), PromotionKinds[i])
  {
  }

  /// A pawn capture along a diagonal: of an opposing piece standing there
  /// (four promotion captures exactly when that is the last rank), or en
  /// passant onto the empty target square.
  lemma PawnCaptureSound(pos: Position, piece: Piece, from: Location, d: Vector)
    requires d.0 != 0 && At(pos.board, from) == Some(piece) && piece.kind == Pawn && piece.player == pos.toMove
    requires EnPassantSound(pos)
    ensures forall m :: m in PawnCapture(pos, piece, from, d) ==>
      Sound(pos.board, piece, from, m) && IsCapture(m)
      && To(m).file == from.file + d.0 && To(m).rank == from.rank + d.1
      && (m.EnPassantCapture? <==> IsEmpty(pos.board, To(m)))
      && (m.EnPassantCapture? ==> pos.enPassant == Some(To(m)))
      && (!m.EnPassantCapture? ==> (IsPromotion(m) <==> To(m).rank == PromotionRank(piece.player)))
  {
  }

  lemma {:induction false} PawnCapturesSound(pos: Position, piece: Piece, from: Location, ds: seq<Vector>, i: int)
    requires 0 <= i <= |ds| && forall k :: 0 <= k < |ds| ==> ds[k].0 != 0
    requires At(pos.board, from) == Some(piece) && piece.kind == Pawn && piece.player == pos.toMove
    requires EnPassantSound(pos)
    ensures forall m :: m in PawnCaptures(pos, piece, from, ds, i) ==>
      Sound(pos.board, piece, from, m) && IsCapture(m)
      && (m.EnPassantCapture? ==> pos.enPassant == Some(To(m)) && IsEmpty(pos.board, To(m)))
    decreases |ds| - i
  {
    if i < |ds| {
      PawnCaptureSound(pos, piece, from, ds[i]);
      PawnCapturesSound(pos, piece, from, ds, i + 1);
    }
  }

  lemma PawnMovesSound(pos: Position, piece: Piece, from: Location)
    requires At(pos.board, from) == Some(piece) && piece.kind == Pawn && piece.player == pos.toMove
    requires EnPassantSound(pos)
    ensures forall m :: m in PawnMoves(pos, piece, from) ==>
      Sound(pos.board, piece, from, m) && !(m.CastleKingside? || m.CastleQueenside? || m.Resign?)
    ensures from.rank == 0 || from.rank == 7 ==> PawnMoves(pos, piece, from) == []
  {
    if 0 < from.rank < 7 {
      PawnPushesSound(pos.board, piece, from);
      PawnCapturesSound(pos, piece, from, PawnCaptureVectors(piece.player), 0);
    }
  }

  /// Castling is offered exactly when its conditions hold, and then fits
  /// the board.
  lemma CastlingMovesExact(pos: Position, p: Player)
    ensures CastleKingside(p) in CastlingMoves(pos, p) <==> CanCastleKingside(pos, p)
    ensures CastleQueenside(p) in CastlingMoves(pos, p) <==> CanCastleQueenside(pos, p)
    ensures forall m :: m in CastlingMoves(pos, p) ==>
      (m == CastleKingside(p) && CanCastleKingside(pos, p)) || (m == CastleQueenside(p) && CanCastleQueenside(pos, p))
  {
  }

  lemma CastlingMovesSound(pos: Position, p: Player)
    ensures forall m :: m in CastlingMoves(pos, p) ==> Sound(pos.board, Piece(p, King), KingHome(p), m)
  {
    CastlingMovesExact(pos, p);
    var r := HomeRank(p);
    if CanCastleQueenside(pos, p) {
      assert At(pos.board, Location(3, r)) == None && At(pos.board, Location(2, r)) == None;
    }
  }

  lemma KingMovesSound(pos: Position, piece: Piece, from: Location)
    requires At(pos.board, from) == Some(piece) && piece.kind == King
    ensures forall m :: m in KingMoves(pos, piece, from) ==> Mover(m) == piece.player && Consistent(pos.board, m)
  {
    StepMovesSound(pos.board, piece, from, EightDirections);
    CastlingMovesSound(pos, piece.player);
  }

  /// Every move generated for a piece of the side to move is that side's
  /// and fits the board.
  lemma PieceMovesSound(pos: Position, piece: Piece, from: Location)
    requires At(pos.board, from) == Some(piece) && piece.player == pos.toMove && EnPassantSound(pos)
    ensures forall m :: m in PieceMoves(pos, piece, from) ==> Mover(m) == pos.toMove && Consistent(pos.board, m)
    ensures piece.kind != King ==> forall m :: m in PieceMoves(pos, piece, from) ==>
      !(m.CastleKingside? || m.CastleQueenside? || m.Resign?)
  {
    match piece.kind
    case Pawn => PawnMovesSound(pos, piece, from);
    case Knight => StepMovesSound(pos.board, piece, from, KnightJumps);
    case Rook => SlideRaysSound(pos.board, piece, from, RookVectors, 0);
    case Bishop => SlideRaysSound(pos.board, piece, from, BishopVectors, 0);
    case Queen => SlideRaysSound(pos.board, piece, from, EightDirections, 0);
    case King => KingMovesSound(pos, piece, from);
  }

  lemma {:induction false} MovesOfPiecesSound(pos: Position, ps: seq<(Piece, Location)>)
    requires forall i :: 0 <= i < |ps| ==> At(pos.board, ps[i].1) == Some(ps[i].0) && ps[i].0.player == pos.toMove
    requires EnPassantSound(pos)
    ensures forall m :: m in MovesOfPieces(pos, ps) ==> Mover(m) == pos.toMove && Consistent(pos.board, m)
  {
    if |ps| > 0 {
      MovesOfPiecesSound(pos, ps[..|ps| - 1]);
      PieceMovesSound(pos, ps[|ps| - 1].0, ps[|ps| - 1].1);
    }
  }

  /// `possibleMoves` only produces moves of the side to move that fit the
  /// board, so applying one and undoing it restores the board.
  lemma PossibleMovesSound(pos: Position)
    requires EnPassantSound(pos)
    ensures forall m :: m in PossibleMoves(pos) ==> Mover(m) == pos.toMove && Consistent(pos.board, m)
  {
    PiecesOfMembers(pos.board, pos.toMove);
    var ps := PiecesOf(pos.board, pos.toMove);
    assert forall i :: 0 <= i < |ps| ==> ps[i] in ps;
    MovesOfPiecesSound(pos, ps);
  }

  /// Every move of a piece in the list is among the moves of the list.
  lemma {:induction false} MovesOfPiecesIncludes(pos: Position, ps: seq<(Piece, Location)>, k: int)
    requires 0 <= k < |ps|
    ensures forall m :: m in PieceMoves(pos, ps[k].0, ps[k].1) ==> m in MovesOfPieces(pos, ps)
  {
    if k < |ps| - 1 {
      MovesOfPiecesIncludes(pos, ps[..|ps| - 1], k);
    }
  }

  /// A castling move in `steps + castles`, where `steps` holds only quiet
  /// moves and captures, is one of `castles`.
  lemma CastlesAfterSteps(steps: seq<Move>, castles: seq<Move>)
    requires forall m :: m in steps ==> m.Move? || m.Capture?
    ensures forall m :: m in steps + castles && (m.CastleKingside? || m.CastleQueenside?) ==> m in castles
  {
  }

  /// Only a king generates castling moves, and only those `CastlingMoves`
  /// offers.
  lemma PieceMovesCastles(pos: Position, piece: Piece, from: Location)
    requires At(pos.board, from) == Some(piece) && piece.player == pos.toMove && EnPassantSound(pos)
    ensures forall m :: m in PieceMoves(pos, piece, from) && (m.CastleKingside? || m.CastleQueenside?) ==>
      m in CastlingMoves(pos, piece.player)
  {
    if piece.kind == King {
      assert PieceMoves(pos, piece, from) == KingMoves(pos, piece, from);
      KingMovesCastles(pos, piece, from);
    } else {
      PieceMovesSound(pos, piece, from);
    }
  }

  /// The castling moves among a king's moves are those `CastlingMoves`
  /// offers: its steps are quiet moves and captures.
  lemma KingMovesCastles(pos: Position, piece: Piece, from: Location)
    requires At(pos.board, from) == Some(piece)
    ensures forall m :: m in KingMoves(pos, piece, from) && (m.CastleKingside? || m.CastleQueenside?) ==>
      m in CastlingMoves(pos, piece.player)
  {
    StepMovesSound(pos.board, piece, from, EightDirections);
    CastlesAfterSteps(StepMoves(pos.board, piece, from, EightDirections), CastlingMoves(pos, piece.player));
  }

  /// A castling move generated for a list of the side to move's pieces is
  /// one `CastlingMoves` offers the side to move.
  lemma {:induction false} MovesOfPiecesCastles(pos: Position, ps: seq<(Piece, Location)>)
    requires forall i :: 0 <= i < |ps| ==> At(pos.board, ps[i].1) == Some(ps[i].0) && ps[i].0.player == pos.toMove
    requires EnPassantSound(pos)
    ensures forall m :: m in MovesOfPieces(pos, ps) && (m.CastleKingside? || m.CastleQueenside?) ==>
      m in CastlingMoves(pos, pos.toMove)
  {
    if |ps| > 0 {
      var prefix := ps[..|ps| - 1];
      var last := ps[|ps| - 1];
      MovesOfPiecesCastles(pos, prefix);
      PieceMovesCastles(pos, last.0, last.1);
      assert MovesOfPieces(pos, ps) == MovesOfPieces(pos, prefix) + PieceMoves(pos, last.0, last.1);
    }
  }

  /// `possibleMoves` offers castling on either wing exactly when the right
  /// is held, king and rook stand on their home squares and the squares
  /// between them are empty (attacks are checked later, by `isLegal`).
  lemma PossibleMovesCastling(pos: Position)
    requires EnPassantSound(pos)
    ensures CastleKingside(pos.toMove) in PossibleMoves(pos) <==> CanCastleKingside(pos, pos.toMove)
    ensures CastleQueenside(pos.toMove) in PossibleMoves(pos) <==> CanCastleQueenside(pos, pos.toMove)
  {
    PossibleMovesCastlesOffered(pos);
    CastlingMovesExact(pos, pos.toMove);
    CastlesOfferedArePossible(pos);
  }

  /// The castling moves `CastlingMoves` offers the side to move are among
  /// the possible moves: they come from the king on its home square.
  lemma CastlesOfferedArePossible(pos: Position)
    ensures forall m :: m in CastlingMoves(pos, pos.toMove) ==> m in PossibleMoves(pos)
  {
    var p := pos.toMove;
    if CastlingMoves(pos, p) != [] {
      var king := Piece(p, King);
      var home := Location(4, HomeRank(p));
      assert At(pos.board, home) == Some(king);
      var k := PieceIndex(pos.board, king, home);
      MovesOfPiecesIncludes(pos, PiecesOf(pos.board, p), k);
      KingMovesIncludeCastling(pos, king, home);
    }
  }

  /// Where a piece of the player stands in `pieces(player:)`.
  lemma PieceIndex(b: Squares, piece: Piece, l: Location) returns (k: int)
    requires At(b, l) == Some(piece)
    ensures 0 <= k < |PiecesOf(b, piece.player)| && PiecesOf(b, piece.player)[k] == (piece, l)
  {
    PiecesOfMembers(b, piece.player);
    var ps := PiecesOf(b, piece.player);
    assert (piece, l) in ps;
    k :| 0 <= k < |ps| && ps[k] == (piece, l);
  }

  lemma KingMovesIncludeCastling(pos: Position, piece: Piece, from: Location)
    requires piece.kind == King
    ensures forall m :: m in CastlingMoves(pos, piece.player) ==> m in PieceMoves(pos, piece, from)
  {
    assert PieceMoves(pos, piece, from) == KingMoves(pos, piece, from);
  }

  /// Every castling move `possibleMoves` produces is one `CastlingMoves`
  /// offers the side to move.
  lemma PossibleMovesCastlesOffered(pos: Position)
    requires EnPassantSound(pos)
    ensures forall m :: m in PossibleMoves(pos) && (m.CastleKingside? || m.CastleQueenside?) ==>
      m in CastlingMoves(pos, pos.toMove)
  {
    var ps := PiecesOf(pos.board, pos.toMove);
    PiecesOfMembers(pos.board, pos.toMove);
    assert forall i :: 0 <= i < |ps| ==> ps[i] in ps;
    MovesOfPiecesCastles(pos, ps);
  }

  /// A move of the side to move that `apply` can run: the captured pawn of
  /// an en-passant capture lies on the board.
  predicate Placed(pos: Position, m: Move)
  {
    Mover(m) == pos.toMove && Applicable(m)
  }

  /// A pawn captures forwards, so the pawn an en-passant capture takes lies
  /// on the board whatever the en-passant target is.
  lemma {:induction false} PawnCapturesPlaced(pos: Position, piece: Piece, from: Location, i: int)
    requires 0 <= i <= 2 && piece.player == pos.toMove
    ensures forall m :: m in PawnCaptures(pos, piece, from, PawnCaptureVectors(piece.player), i) ==> Placed(pos, m)
    decreases 2 - i
  {
    if i < 2 {
      PawnCapturesPlaced(pos, piece, from, i + 1);
    }
  }

  lemma PieceMovesPlaced(pos: Position, piece: Piece, from: Location)
    requires At(pos.board, from) == Some(piece) && piece.player == pos.toMove
    ensures forall m :: m in PieceMoves(pos, piece, from) ==> Placed(pos, m)
  {
    match piece.kind
    case Pawn =>
      if 0 < from.rank < 7 {
        PawnPushesSound(pos.board, piece, from);
        PawnCapturesPlaced(pos, piece, from, 0);
      }
    case Knight => StepMovesSound(pos.board, piece, from, KnightJumps);
    case Rook => SlideRaysSound(pos.board, piece, from, RookVectors, 0);
    case Bishop => SlideRaysSound(pos.board, piece, from, BishopVectors, 0);
    case Queen => SlideRaysSound(pos.board, piece, from, EightDirections, 0);
    case King => KingMovesSound(pos, piece, from);
  }

  lemma {:induction false} MovesOfPiecesPlaced(pos: Position, ps: seq<(Piece, Location)>)
    requires forall i :: 0 <= i < |ps| ==> At(pos.board, ps[i].1) == Some(ps[i].0) && ps[i].0.player == pos.toMove
    ensures forall m :: m in MovesOfPieces(pos, ps) ==> Placed(pos, m)
  {
    if |ps| > 0 {
      MovesOfPiecesPlaced(pos, ps[..|ps| - 1]);
      PieceMovesPlaced(pos, ps[|ps| - 1].0, ps[|ps| - 1].1);
    }
  }

  /// Whatever the en-passant target, every possible move is the side to
  /// move's and can be applied, so `legalMoves` can simulate any of them.
  lemma PossibleMovesPlaced(pos: Position)
    ensures forall m :: m in PossibleMoves(pos) ==> Placed(pos, m)
  {
    PiecesOfMembers(pos.board, pos.toMove);
    var ps := PiecesOf(pos.board, pos.toMove);
    assert forall i :: 0 <= i < |ps| ==> ps[i] in ps;
    MovesOfPiecesPlaced(pos, ps);
  }

  // The generators as the Swift code runs them: each appends to `moves` in
  // place, here an in-out sequence, and is proved to append exactly the
  // list its specification function gives.

  /// One step of `addKnightMoves` / `addKingMoves`.
  method AddStepTarget(b: Squares, piece: Piece, from: Location, d: Vector, moves: seq<Move>) returns (result: seq<Move>)
    ensures result == moves + StepTarget(b, piece, from, d)
  {
    result := moves;
    var target := IfValid(from.file + d.0, from.rank + d.1);
    if target.Some? {
      var targetLocation := target.value;
      var occupant := At(b, targetLocation);
      if occupant.Some? {
        if occupant.value.player != piece.player {
          result := result + [Capture(piece, from, targetLocation, occupant.value.kind)];
        }
      } else {
        result := result + [Move(piece, from, targetLocation)];
      }
    }
  }

  /// The loop over knight jumps or king directions.
  method AddStepMoves(b: Squares, piece: Piece, from: Location, ds: seq<Vector>, moves: seq<Move>) returns (result: seq<Move>)
    ensures result == moves + StepMoves(b, piece, from, ds)
  {
    result := moves;
    var i := 0;
    while i < |ds|
      invariant 0 <= i <= |ds|
      invariant result + StepMoves(b, piece, from, ds[i..]) == moves + StepMoves(b, piece, from, ds)
    {
      assert ds[i..][1..] == ds[i + 1..];
      var step := StepTarget(b, piece, from, ds[i]);
      var rest := StepMoves(b, piece, from, ds[i + 1..]);
      assert StepMoves(b, piece, from, ds[i..]) == step + rest;
      AppendAssociates(result, step, rest);
      result := AddStepTarget(b, piece, from, ds[i], result);
      i := i + 1;
    }
  }

  /// `addKnightMoves`.
  method AddKnightMoves(b: Squares, piece: Piece, from: Location, moves: seq<Move>) returns (result: seq<Move>)
    ensures result == moves + StepMoves(b, piece, from, KnightJumps)
  {
    result := AddStepMoves(b, piece, from, KnightJumps, moves);
  }

  /// Past an empty square a ray goes on with a quiet move to it.
  lemma SlideRayEmptyStep(b: Squares, piece: Piece, from: Location, d: Vector, file: int, rank: int)
    requires UnitVector(d) && IfValid(file, rank).Some? && At(b, IfValid(file, rank).value).None?
    ensures SlideRay(b, piece, from, d, file, rank)
      == [Move(piece, from, IfValid(file, rank).value)] + SlideRay(b, piece, from, d, file + d.0, rank + d.1)
  {
  }

  /// A ray ends at its first occupied square, with a capture there if the
  /// piece on it is an opponent's.
  lemma SlideRayOccupied(b: Squares, piece: Piece, from: Location, d: Vector, file: int, rank: int)
    requires UnitVector(d) && IfValid(file, rank).Some? && At(b, IfValid(file, rank).value).Some?
    ensures var t := IfValid(file, rank).value;
      var occupant := At(b, t).value;
      SlideRay(b, piece, from, d, file, rank)
        == if occupant.player != piece.player then [Capture(piece, from, t, occupant.kind)] else []
  {
  }

  /// The inner loop of `addSlideMoves`: walk one ray until it leaves the
  /// board or meets a piece.
  method AddSlideRay(b: Squares, piece: Piece, from: Location, d: Vector, moves: seq<Move>) returns (result: seq<Move>)
    requires UnitVector(d)
    ensures result == moves + SlideRay(b, piece, from, d, from.file + d.0, from.rank + d.1)
  {
    result := moves;
    var file := from.file + d.0;
    var rank := from.rank + d.1;
    while IfValid(file, rank).Some?
      invariant result + SlideRay(b, piece, from, d, file, rank)
        == moves + SlideRay(b, piece, from, d, from.file + d.0, from.rank + d.1)
      decreases RayMeasure(file, rank, d)
    {
      var targetLocation := IfValid(file, rank).value;
      var occupant := At(b, targetLocation);
      if occupant.Some? {
        SlideRayOccupied(b, piece, from, d, file, rank);
        if occupant.value.player != piece.player {
          result := result + [Capture(piece, from, targetLocation, occupant.value.kind)];
        }
        return;
      }
      SlideRayEmptyStep(b, piece, from, d, file, rank);
      RayMeasureDecreases(file, rank, d);
      AppendAssociates(result, [Move(piece, from, targetLocation)], SlideRay(b, piece, from, d, file + d.0, rank + d.1));
      result := result + [Move(piece, from, targetLocation)];
      file := file + d.0;
      rank := rank + d.1;
    }
  }

  /// `addSlideMoves`: the rays in the order of the vectors.
  method AddSlideMoves(b: Squares, piece: Piece, from: Location, ds: seq<Vector>, moves: seq<Move>) returns (result: seq<Move>)
    requires UnitVectors(ds)
    ensures result == moves + SlideMoves(b, piece, from, ds)
  {
    result := moves;
    var i := 0;
    while i < |ds|
      invariant 0 <= i <= |ds|
      invariant result + SlideRays(b, piece, from, ds, i) == moves + SlideMoves(b, piece, from, ds)
    {
      var ray := SlideRay(b, piece, from, ds[i], from.file + ds[i].0, from.rank + ds[i].1);
      var rest := SlideRays(b, piece, from, ds, i + 1);
      assert SlideRays(b, piece, from, ds, i) == ray + rest;
      AppendAssociates(result, ray, rest);
      result := AddSlideRay(b, piece, from, ds[i], result);
      i := i + 1;
    }
  }

  /// The loop over `promotionKinds`.
  method AddPromotions(p: Player, from: Location, to: Location, moves: seq<Move>) returns (result: seq<Move>)
    ensures result == moves + Promotions(p, from, to)
  {
    result := moves;
    for i := 0 to |PromotionKinds|
      invariant result == moves + Promotions(p, from, to)[..i]
    {
      assert Promotions(p, from, to)[..i + 1] == Promotions(p, from, to)[..i] + [Promote(p, from, to, PromotionKinds[i])];
      result := result + [Promote(p, from, to, PromotionKinds[i])];
    }
    assert Promotions(p, from, to)[..4] == Promotions(p, from, to);
  }

  /// The loop over `promotionKinds` for a capture.
  method AddPromotionCaptures(p: Player, from: Location, to: Location, captured: PieceKind, moves: seq<Move>)
    returns (result: seq<Move>)
    ensures result == moves + PromotionCaptures(p, from, to, captured)
  {
    result := moves;
    for i := 0 to |PromotionKinds|
      invariant result == moves + PromotionCaptures(p, from, to, captured)[..i]
    {
      assert PromotionCaptures(p, from, to, captured)[..i + 1]
        == PromotionCaptures(p, from, to, captured)[..i] + [PromoteCapture(p, from, to, captured, PromotionKinds[i])];
      result := result + [PromoteCapture(p, from, to, captured, PromotionKinds[i])];
    }
    assert PromotionCaptures(p, from, to, captured)[..4] == PromotionCaptures(p, from, to, captured);
  }

  /// The forward moves of `addPawnMoves`.
  method AddPawnPushes(b: Squares, piece: Piece, from: Location, moves: seq<Move>) returns (result: seq<Move>)
    requires 0 < from.rank < 7
    ensures result == moves + PawnPushes(b, piece, from)
  {
    result := moves;
    var p := piece.player;
    var file := from.file;
    var moveDirection := PawnDirection(p);
    var nextRank := from.rank + moveDirection;
    if IsEmpty(b, Location(file, nextRank)) {
      var to := Location(file, nextRank);
      if to.rank == PromotionRank(p) {
        result := AddPromotions(p, from, to, result);
      } else {
        result := result + [Move(piece, from, to)];
        var startRank := StartRank(p);
        if from.rank == startRank {
          var jumpRank := startRank + 2 * moveDirection;
          if IsEmpty(b, Location(file, jumpRank)) {
            result := result + [Move(piece, from, Location(file, jumpRank))];
          }
        }
      }
    }
  }

  /// One diagonal of `addPawnMoves`' capture loop.
  method AddPawnCapture(pos: Position, piece: Piece, from: Location, d: Vector, moves: seq<Move>) returns (result: seq<Move>)
    ensures result == moves + PawnCapture(pos, piece, from, d)
  {
    result := moves;
    var p := piece.player;
    var target := IfValid(from.file + d.0, from.rank + d.1);
    if target.Some? {
      var captureLocation := target.value;
      var occupant := At(pos.board, captureLocation);
      if occupant.Some? {
        if occupant.value.player == Opponent(p) {
          if captureLocation.rank == PromotionRank(p) {
            result := AddPromotionCaptures(p, from, captureLocation, occupant.value.kind, result);
          } else {
            result := result + [Capture(piece, from, captureLocation, occupant.value.kind)];
          }
        }
      } else if pos.enPassant == Some(captureLocation) {
        result := result + [EnPassantCapture(p, from, captureLocation)];
      }
    }
  }

  /// `addPawnMoves`: pushes, then the two diagonals.
  method AddPawnMoves(pos: Position, piece: Piece, from: Location, moves: seq<Move>) returns (result: seq<Move>)
    ensures result == moves + PawnMoves(pos, piece, from)
  {
    result := moves;
    if 0 < from.rank && from.rank < 7 {
      result := AddPawnPushes(pos.board, piece, from, result);
      ghost var pushes := result;
      var captureMoves := PawnCaptureVectors(piece.player);
      var j := 0;
      while j < |captureMoves|
        invariant 0 <= j <= |captureMoves|
        invariant result + PawnCaptures(pos, piece, from, captureMoves, j)
          == pushes + PawnCaptures(pos, piece, from, captureMoves, 0)
      {
        ghost var before := result;
        result := AddPawnCapture(pos, piece, from, captureMoves[j], result);
        AppendAssociates(before, PawnCapture(pos, piece, from, captureMoves[j]), PawnCaptures(pos, piece, from, captureMoves, j + 1));
        j := j + 1;
      }
      AppendAssociates(moves, PawnPushes(pos.board, piece, from), PawnCaptures(pos, piece, from, captureMoves, 0));
    }
  }

  /// `addKingMoves`: the eight steps, then the castling checks.
  method AddKingMoves(pos: Position, piece: Piece, from: Location, moves: seq<Move>) returns (result: seq<Move>)
    ensures result == moves + KingMoves(pos, piece, from)
  {
    var steps := AddStepMoves(pos.board, piece, from, EightDirections, moves);
    result := steps;
    var p := piece.player;
    var kingside := CanCastleKingside(pos, p);
    var queenside := CanCastleQueenside(pos, p);
    if kingside {
      result := result + [CastleKingside(p)];
    }
    if queenside {
      result := result + [CastleQueenside(p)];
    }
    AppendOptionalPair(steps, kingside, CastleKingside(p), queenside, CastleQueenside(p));
    AppendAssociates(moves, StepMoves(pos.board, piece, from, EightDirections), CastlingMoves(pos, p));
  }

  /// Appending `x` if `a` and then `y` if `b` appends the list of the two
  /// that `CastlingMoves` builds.
  lemma AppendOptionalPair(s: seq<Move>, a: bool, x: Move, b: bool, y: Move)
    ensures s + OptionalPair(a, x, b, y)
      == (var first := if a then s + [x] else s; if b then first + [y] else first)
  {
    if a && b {
      assert s + [x] + [y] == s + [x, y];
    }
  }

  /// `addMoves`: dispatch on the kind of piece.
  method AddMoves(pos: Position, piece: Piece, from: Location, moves: seq<Move>) returns (result: seq<Move>)
    ensures result == moves + PieceMoves(pos, piece, from)
  {
    match piece.kind {
      case Pawn => result := AddPawnMoves(pos, piece, from, moves);
      case Knight => result := AddKnightMoves(pos.board, piece, from, moves);
      case Rook => result := AddSlideMoves(pos.board, piece, from, RookVectors, moves);
      case Bishop => result := AddSlideMoves(pos.board, piece, from, BishopVectors, moves);
      case Queen => result := AddSlideMoves(pos.board, piece, from, EightDirections, moves);
      case King => result := AddKingMoves(pos, piece, from, moves);
    }
  }

  /// The loop of `possibleMoves` over a list of pieces and their squares.
  method AddMovesOfPieces(pos: Position, piecesLocations: seq<(Piece, Location)>) returns (moves: seq<Move>)
    ensures moves == MovesOfPieces(pos, piecesLocations)
  {
    moves := [];
    var i := 0;
    while i < |piecesLocations|
      invariant 0 <= i <= |piecesLocations|
      invariant moves == MovesOfPieces(pos, piecesLocations[..i])
    {
      assert piecesLocations[..i + 1][..i] == piecesLocations[..i];
      moves := AddMoves(pos, piecesLocations[i].0, piecesLocations[i].1, moves);
      i := i + 1;
    }
    assert piecesLocations[..i] == piecesLocations;
  }

  /// `possibleMoves`: the moves of every piece of the side to move, in the
  /// order `pieces(player:)` lists them.
  method ComputePossibleMoves(pos: Position) returns (moves: seq<Move>)
    ensures moves == PossibleMoves(pos)
  {
    moves := AddMovesOfPieces(pos, PiecesOf(pos.board, pos.toMove));
  }
}
