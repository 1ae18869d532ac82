/// The attack detector of kjchess/Position_legalMoves.swift: `isAttacked`
/// and `isAttackedBySlide`. Whether a player attacks a square depends only
/// on the board, so the functions here take the squares.
///
/// `Attacked` states which pieces attack a square, one clause per loop of
/// the Swift code; `IsAttacked` runs those loops with their early returns
/// and is proved to compute it. `SlideAttackedExact` describes a slider's
/// attack without recursion: an attacker on the ray with only empty squares
/// in front of it.
module Attacks {
  import opened Wrappers
  import opened Players
  import opened Pieces
  import opened Locations
  import opened Boards
  import opened MoveGeneration

  const RookLikeKinds: seq<PieceKind> := [Rook, Queen]
  const BishopLikeKinds: seq<PieceKind> := [Bishop, Queen]

  /// A piece of `p` of the given kind stands `d` away from `sq`.
  predicate StepAttacker(b: Squares, sq: Location, p: Player, kind: PieceKind, d: Vector)
  {
    match IfValid(sq.file + d.0, sq.rank + d.1)
    case None => false
    case Some(a) => At(b, a) == Some(Piece(p, kind))
  }

  /// A pawn of `p` stands one capture step `d` behind `sq`.
  predicate PawnAttacker(b: Squares, sq: Location, p: Player, d: Vector)
  {
    match IfValid(sq.file - d.0, sq.rank - d.1)
    case None => false
    case Some(a) => At(b, a) == Some(Piece(p, Pawn))
  }

  /// The loop of `isAttackedBySlide` from (file, rank) on: the first
  /// occupied square decides, and attacks when it holds a piece of `p` of
  /// one of `kinds`.
  predicate SlideAttacker(b: Squares, p: Player, d: Vector, file: int, rank: int, kinds: seq<PieceKind>)
    requires UnitVector(d)
    decreases RayMeasure(file, rank, d)
  {
    match IfValid(file, rank)
    case None => false
    case Some(a) =>
      match At(b, a)
      case Some(x) => x.player == p && x.kind in kinds
      case None => SlideAttacker(b, p, d, file + d.0, rank + d.1, kinds)
  }

  /// `isAttackedBySlide`: the ray starts next to `sq`.
  predicate SlideAttacked(b: Squares, sq: Location, p: Player, d: Vector, kinds: seq<PieceKind>)
    requires UnitVector(d)
  {
    SlideAttacker(b, p, d, sq.file + d.0, sq.rank + d.1, kinds)
  }

  /// `isAttacked(location:by:)`: a knight a jump away, a rook or queen on
  /// an open file or rank, a bishop or queen on an open diagonal, an
  /// adjacent king, or a pawn one capture step behind the square.
  predicate Attacked(b: Squares, sq: Location, p: Player)
  {
    (exists i :: 0 <= i < |KnightJumps| && StepAttacker(b, sq, p, Knight, KnightJumps[i]))
    || (exists i :: 0 <= i < |RookVectors| && SlideAttacked(b, sq, p, RookVectors[i], RookLikeKinds))
    || (exists i :: 0 <= i < |BishopVectors| && SlideAttacked(b, sq, p, BishopVectors[i], BishopLikeKinds))
    || (exists i :: 0 <= i < |EightDirections| && StepAttacker(b, sq, p, King, EightDirections[i]))
    || (exists i :: 0 <= i < |PawnCaptureVectors(p)| && PawnAttacker(b, sq, p, PawnCaptureVectors(p)[i]))
  }

  // A slider's attack without recursion.

  /// `n * c` for a direction component `c` in {-1, 0, 1}.
  function Scale(n: int, c: int): int
  {
    if c == 1 then n else if c == -1 then -n else 0
  }

  /// The square `n` steps from `sq` in direction `d`, if it is on the board.
  function RaySquare(sq: Location, d: Vector, n: int): Option<Location>
  {
    IfValid(sq.file + Scale(n, d.0), sq.rank + Scale(n, d.1))
  }

  predicate RaySquareEmpty(b: Squares, sq: Location, d: Vector, n: int)
  {
    RaySquare(sq, d, n).Some? && IsEmpty(b, RaySquare(sq, d, n).value)
  }

  predicate RaySquareAttacker(b: Squares, sq: Location, d: Vector, n: int, p: Player, kinds: seq<PieceKind>)
  {
    RaySquare(sq, d, n).Some? && At(b, RaySquare(sq, d, n).value).Some?
    && At(b, RaySquare(sq, d, n).value).value.player == p && At(b, RaySquare(sq, d, n).value).value.kind in kinds
  }

  /// Every step from `k` up to (not including) `n` is an empty square.
  ghost predicate ClearBetween(b: Squares, sq: Location, d: Vector, k: int, n: int)
  {
    forall j :: k <= j < n ==> RaySquareEmpty(b, sq, d, j)
  }

  /// Some step `n >= k` holds one of `p`'s pieces of `kinds`, with only
  /// empty squares from step `k` up to it.
  ghost predicate AttackerFrom(b: Squares, sq: Location, d: Vector, p: Player, kinds: seq<PieceKind>, k: int)
  {
    exists n :: n >= k && RaySquareAttacker(b, sq, d, n, p, kinds) && ClearBetween(b, sq, d, k, n)
  }

  /// Step `k` is off the board or occupied: an attacker from `k` on must
  /// stand at `k` itself.
  lemma AttackerFromBlocked(b: Squares, sq: Location, d: Vector, p: Player, kinds: seq<PieceKind>, k: int)
    requires !RaySquareEmpty(b, sq, d, k)
    ensures AttackerFrom(b, sq, d, p, kinds, k) <==> RaySquareAttacker(b, sq, d, k, p, kinds)
  {
    if RaySquareAttacker(b, sq, d, k, p, kinds) {
      assert ClearBetween(b, sq, d, k, k);
    }
  }

  /// Step `k` is empty: an attacker from `k` on is one from `k + 1` on.
  lemma AttackerFromEmpty(b: Squares, sq: Location, d: Vector, p: Player, kinds: seq<PieceKind>, k: int)
    requires RaySquareEmpty(b, sq, d, k)
    ensures AttackerFrom(b, sq, d, p, kinds, k) <==> AttackerFrom(b, sq, d, p, kinds, k + 1)
  {
    if AttackerFrom(b, sq, d, p, kinds, k) {
      var n :| n >= k && RaySquareAttacker(b, sq, d, n, p, kinds) && ClearBetween(b, sq, d, k, n);
      assert n != k;
      assert ClearBetween(b, sq, d, k + 1, n);
    }
    if AttackerFrom(b, sq, d, p, kinds, k + 1) {
      var n :| n >= k + 1 && RaySquareAttacker(b, sq, d, n, p, kinds) && ClearBetween(b, sq, d, k + 1, n);
      assert ClearBetween(b, sq, d, k, n);
    }
  }

  /// The ray walk from step `k`, at (file, rank), finds an attacker exactly
  /// when some step `n >= k` holds one of `p`'s pieces of `kinds` and every
  /// step from `k` up to `n` is an empty square.
  lemma {:induction false} SlideAttackerExact(b: Squares, sq: Location, p: Player, d: Vector, kinds: seq<PieceKind>, k: int, file: int, rank: int)
    requires UnitVector(d)
    requires file == sq.file + Scale(k, d.0) && rank == sq.rank + Scale(k, d.1)
    ensures SlideAttacker(b, p, d, file, rank, kinds) <==> AttackerFrom(b, sq, d, p, kinds, k)
    decreases RayMeasure(file, rank, d)
  {
    assert RaySquare(sq, d, k) == IfValid(file, rank);
    if RaySquareEmpty(b, sq, d, k) {
      assert SlideAttacker(b, p, d, file, rank, kinds) == SlideAttacker(b, p, d, file + d.0, rank + d.1, kinds);
      SlideAttackerExact(b, sq, p, d, kinds, k + 1, file + d.0, rank + d.1);
      AttackerFromEmpty(b, sq, d, p, kinds, k);
    } else {
      assert SlideAttacker(b, p, d, file, rank, kinds) == RaySquareAttacker(b, sq, d, k, p, kinds);
      AttackerFromBlocked(b, sq, d, p, kinds, k);
    }
  }

  /// A slider attacks `sq` along `d` exactly when one of `p`'s pieces of
  /// `kinds` stands some `n >= 1` steps away with only empty squares
  /// between it and `sq`.
  lemma SlideAttackedExact(b: Squares, sq: Location, p: Player, d: Vector, kinds: seq<PieceKind>)
    requires UnitVector(d)
    ensures SlideAttacked(b, sq, p, d, kinds) <==>
      exists n :: n >= 1 && RaySquareAttacker(b, sq, d, n, p, kinds)
        && forall j :: 1 <= j < n ==> RaySquareEmpty(b, sq, d, j)
  {
    assert Scale(1, d.0) == d.0 && Scale(1, d.1) == d.1;
    SlideAttackerExact(b, sq, p, d, kinds, 1, sq.file + d.0, sq.rank + d.1);
  }

  // The loops as the Swift code runs them.

  /// `isAttackedBySlide`: walk the ray until the first piece or the edge.
  method IsAttackedBySlide(b: Squares, sq: Location, p: Player, d: Vector, kinds: seq<PieceKind>) returns (r: bool)
    requires UnitVector(d)
    ensures r == SlideAttacked(b, sq, p, d, kinds)
  {
    var file := sq.file + d.0;
    var rank := sq.rank + d.1;
    while IfValid(file, rank).Some?
      invariant SlideAttacker(b, p, d, file, rank, kinds) == SlideAttacked(b, sq, p, d, kinds)
      decreases RayMeasure(file, rank, d)
    {
      var attackerLocation := IfValid(file, rank).value;
      var attacker := At(b, attackerLocation);
      if attacker.Some? {
        if attacker.value.player == p {
          return attacker.value.kind in kinds;
        }
        return false;
      }
      file := file + d.0;
      rank := rank + d.1;
    }
    return false;
  }

  /// The knight and king loops of `isAttacked`: is there a piece of `p` of
  /// `kind` one of the steps `ds` away?
  method IsAttackedByStep(b: Squares, sq: Location, p: Player, kind: PieceKind, ds: seq<Vector>) returns (r: bool)
    ensures r <==> exists i :: 0 <= i < |ds| && StepAttacker(b, sq, p, kind, ds[i])
  {
    for i := 0 to |ds|
      invariant forall j :: 0 <= j < i ==> !StepAttacker(b, sq, p, kind, ds[j])
    {
      var attackerLocation := IfValid(sq.file + ds[i].0, sq.rank + ds[i].1);
      if attackerLocation.Some? {
        var attacker := At(b, attackerLocation.value);
        if attacker.Some? {
          if attacker.value.player == p && attacker.value.kind == kind {
            return true;
          }
        }
      }
    }
    return false;
  }

  /// The rook and bishop loops of `isAttacked`.
  method IsAttackedBySlides(b: Squares, sq: Location, p: Player, ds: seq<Vector>, kinds: seq<PieceKind>) returns (r: bool)
    requires UnitVectors(ds)
    ensures r <==> exists i :: 0 <= i < |ds| && SlideAttacked(b, sq, p, ds[i], kinds)
  {
    for i := 0 to |ds|
      invariant forall j :: 0 <= j < i ==> !SlideAttacked(b, sq, p, ds[j], kinds)
    {
      var attacked := IsAttackedBySlide(b, sq, p, ds[i], kinds);
      if attacked {
        return true;
      }
    }
    return false;
  }

  /// The pawn loop of `isAttacked`: the capture vectors are stepped
  /// backwards from the square.
  method IsAttackedByPawn(b: Squares, sq: Location, p: Player) returns (r: bool)
    ensures r <==> exists i :: 0 <= i < |PawnCaptureVectors(p)| && PawnAttacker(b, sq, p, PawnCaptureVectors(p)[i])
  {
    var ds := PawnCaptureVectors(p);
    for i := 0 to |ds|
      invariant forall j :: 0 <= j < i ==> !PawnAttacker(b, sq, p, ds[j])
    {
      var attackerLocation := IfValid(sq.file - ds[i].0, sq.rank - ds[i].1);
      if attackerLocation.Some? {
        var attacker := At(b, attackerLocation.value);
        if attacker.Some? {
          if attacker.value.player == p && attacker.value.kind == Pawn {
            return true;
          }
        }
      }
    }
    return false;
  }

  /// `isAttacked(location:by:)`: knights, rooks and queens, bishops and
  /// queens, the king, then pawns, returning at the first attacker found.
  method IsAttacked(b: Squares, sq: Location, p: Player) returns (r: bool)
    ensures r == Attacked(b, sq, p)
  {
    r := IsAttackedByStep(b, sq, p, Knight, KnightJumps);
    if r { return; }
    r := IsAttackedBySlides(b, sq, p, RookVectors, RookLikeKinds);
    if r { return; }
    r := IsAttackedBySlides(b, sq, p, BishopVectors, BishopLikeKinds);
    if r { return; }
    r := IsAttackedByStep(b, sq, p, King, EightDirections);
    if r { return; }
    r := IsAttackedByPawn(b, sq, p);
  }
}
