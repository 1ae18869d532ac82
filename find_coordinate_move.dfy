/// Finding and playing moves given in coordinate form
/// (kjchess/Position_after_coordinateMove.swift).
module CoordinateMoveLookup {
  import opened Wrappers
  import opened Pieces
  import opened Moves
  import opened Locations
  import opened Positions
  import opened MoveGeneration
  import opened Legality
  import opened CoordinateMoves
  import opened ChessErrors

  /// The test of the first `filter` in `find(coordinateMove:)`.
  function Joins(from: Location, to: Location): Move -> bool
  {
    m => From(m) == from && To(m) == to
  }

  /// The test of the second `filter`.
  function Promotes(k: PieceKind): Move -> bool
  {
    m => PromotedKind(m) == Some(k)
  }

  /// The legal moves from `from` to `to`, in generation order.
  function Matching(pos: Position, from: Location, to: Location): seq<Move>
  {
    Filter(LegalMoves(pos), Joins(from, to))
  }

  /// `find(coordinateMove:)`: a string that does not parse is an invalid
  /// move; one legal move between the two squares is the answer whatever
  /// promotion letter was given; with several, the promotion letter has to
  /// pick out exactly one of them; anything else is no matching move.
  function Find(pos: Position, s: string): Result<Move, ChessError>
  {
    match ParseCoordinateMove(s)
    case None => Err(InvalidCoordinateMove(s))
    case Some(cm) =>
      var moves := Matching(pos, cm.from, cm.to);
      if |moves| == 1 then Ok(moves[0])
      else if cm.promoted.Some? && |Filter(moves, Promotes(cm.promoted.value))| == 1 then
        Ok(Filter(moves, Promotes(cm.promoted.value))[0])
      else Err(NoMatchingCoordinateMoves(cm.from, cm.to, cm.promoted))
  }

  /// The errors of `find(coordinateMove:)`: a string that does not parse
  /// gives `InvalidCoordinateMove`, a parsed one for which no single move
  /// is picked out gives `NoMatchingCoordinateMoves` with its squares and
  /// promotion kind.
  lemma FindErrors(pos: Position, s: string)
    ensures ParseCoordinateMove(s).None? <==> Find(pos, s) == Err(InvalidCoordinateMove(s))
    ensures ParseCoordinateMove(s).Some? && Find(pos, s).Err? ==>
      var cm := ParseCoordinateMove(s).value;
      Find(pos, s) == Err(NoMatchingCoordinateMoves(cm.from, cm.to, cm.promoted))
  {
  }

  /// What `find(coordinateMove:)` returns is a legal move between the two
  /// squares the string names; when several legal moves join those
  /// squares it is the one promoting to the kind the string names.
  lemma FindIsLegal(pos: Position, s: string)
    requires Find(pos, s).Ok?
    ensures ParseCoordinateMove(s).Some?
    ensures var cm := ParseCoordinateMove(s).value;
      var m := Find(pos, s).value;
      m in LegalMoves(pos) && From(m) == cm.from && To(m) == cm.to
      && (|Matching(pos, cm.from, cm.to)| != 1 ==> cm.promoted.Some? && PromotedKind(m) == cm.promoted)
  {
    var cm := ParseCoordinateMove(s).value;
    var moves := Matching(pos, cm.from, cm.to);
    var m := Find(pos, s).value;
    if |moves| == 1 {
      assert m in moves;
    } else {
      var k := cm.promoted.value;
      assert m in Filter(moves, Promotes(k));
      FilterMembership(moves, Promotes(k), m);
    }
    FilterMembership(LegalMoves(pos), Joins(cm.from, cm.to), m);
  }

  /// When exactly one legal move joins the two squares, `find` returns it,
  /// whatever promotion letter the string carries.
  lemma FindSingleMatch(pos: Position, s: string, m: Move)
    requires ParseCoordinateMove(s).Some?
    requires var cm := ParseCoordinateMove(s).value; Matching(pos, cm.from, cm.to) == [m]
    ensures Find(pos, s) == Ok(m)
  {
  }

  /// With no legal move between the two squares, or several and no
  /// promotion letter (such as "e7e8" when four promotions are possible),
  /// `find` throws `NoMatchingCoordinateMoves`.
  lemma FindNoSingleMatch(pos: Position, s: string)
    requires ParseCoordinateMove(s).Some?
    requires var cm := ParseCoordinateMove(s).value;
      |Matching(pos, cm.from, cm.to)| == 0 || (|Matching(pos, cm.from, cm.to)| > 1 && cm.promoted.None?)
    ensures var cm := ParseCoordinateMove(s).value;
      Find(pos, s) == Err(NoMatchingCoordinateMoves(cm.from, cm.to, cm.promoted))
  {
    var cm := ParseCoordinateMove(s).value;
    if |Matching(pos, cm.from, cm.to)| == 0 {
      assert |Filter(Matching(pos, cm.from, cm.to), Promotes(PieceKind.Queen))| == 0;
      assert forall k :: |Filter(Matching(pos, cm.from, cm.to), Promotes(k))| == 0;
    }
  }

  /// `after(coordinateMove:)`: the position after the move `find` returns.
  function AfterCoordinateMove(pos: Position, s: string): Result<Position, ChessError>
  {
    match Find(pos, s)
    case Err(e) => Err(e)
    case Ok(m) =>
      FindIsLegal(pos, s);
      LegalMovesPlaced(pos, m);
      Ok(Positions.After(pos, m))
  }

  /// A string that plays yields a position one move further on.
  lemma AfterCoordinateMoveStep(pos: Position, s: string)
    ensures AfterCoordinateMove(pos, s).Ok? ==> OneMoveOn(pos, AfterCoordinateMove(pos, s).value)
  {
  }

  /// `next` extends the history of `pos` by one move and flips the side
  /// to move.
  predicate OneMoveOn(pos: Position, next: Position)
  {
    |next.moves| == |pos.moves| + 1 && next.moves[..|pos.moves|] == pos.moves
    && next.toMove == Players.Opponent(pos.toMove)
  }

  /// Strings played from left to right with `step`; the first one that
  /// fails is the error.
  function PlayAll(pos: Position, ss: seq<string>, step: (Position, string) -> Result<Position, ChessError>): Result<Position, ChessError>
    decreases |ss|
  {
    if |ss| == 0 then Ok(pos)
    else match step(pos, ss[0])
      case Err(e) => Err(e)
      case Ok(next) => PlayAll(next, ss[1..], step)
  }

  /// `after(coordinateMoves:)`.
  function AfterCoordinateMoves(pos: Position, ss: seq<string>): Result<Position, ChessError>
  {
    PlayAll(pos, ss, AfterCoordinateMove)
  }

  /// `after(coordinateMoves:)` as the Swift code runs it.
  method PlayCoordinateMoves(pos: Position, ss: seq<string>) returns (r: Result<Position, ChessError>)
    ensures r == AfterCoordinateMoves(pos, ss)
  {
    var result := pos;
    for i := 0 to |ss|
      invariant AfterCoordinateMoves(pos, ss) == PlayAll(result, ss[i..], AfterCoordinateMove)
    {
      assert ss[i..][1..] == ss[i + 1..];
      var next := AfterCoordinateMove(result, ss[i]);
      if next.Err? {
        return Err(next.error);
      }
      result := next.value;
    }
    assert ss[|ss|..] == [];
    r := Ok(result);
  }

  /// One string played through `after(coordinateMoves:)` is
  /// `after(coordinateMove:)`.
  lemma AfterOneCoordinateMove(pos: Position, s: string)
    ensures AfterCoordinateMoves(pos, [s]) == AfterCoordinateMove(pos, s)
  {
    PlayAllOne(pos, s, AfterCoordinateMove);
  }

  /// `after(coordinateMove:)` fails exactly when `find` does, and is
  /// otherwise `after` of the legal move `find` returns.
  lemma AfterCoordinateMoveIsAfterFind(pos: Position, s: string)
    ensures Find(pos, s).Ok? <==> AfterCoordinateMove(pos, s).Ok?
    ensures Find(pos, s).Ok? ==>
      Find(pos, s).value in LegalMoves(pos) && Placed(pos, Find(pos, s).value)
      && AfterCoordinateMove(pos, s) == Ok(Positions.After(pos, Find(pos, s).value))
  {
    if Find(pos, s).Ok? {
      FindIsLegal(pos, s);
      LegalMovesPlaced(pos, Find(pos, s).value);
    }
  }

  lemma PlayAllOne(pos: Position, s: string, step: (Position, string) -> Result<Position, ChessError>)
    ensures PlayAll(pos, [s], step) == step(pos, s)
  {
    assert [s][1..] == [];
  }

  /// Playing `a + b` is playing `a`, then `b` from where `a` ended; an
  /// error in `a` stops there.
  lemma {:induction false} PlayAllAppend(pos: Position, a: seq<string>, b: seq<string>, step: (Position, string) -> Result<Position, ChessError>)
    ensures PlayAll(pos, a + b, step) ==
      match PlayAll(pos, a, step)
      case Err(e) => Err(e)
      case Ok(mid) => PlayAll(mid, b, step)
    decreases |a|
  {
    if |a| == 0 {
      assert a + b == b;
    } else {
      assert (a + b)[0] == a[0] && (a + b)[1..] == a[1..] + b;
      match step(pos, a[0])
      case Err(e) =>
      case Ok(next) =>
        PlayAllAppend(next, a[1..], b, step);
    }
  }

  /// A successful run of `n` strings adds `n` moves to the history and
  /// flips the side to move `n` times.
  lemma {:induction false} PlayAllHistory(pos: Position, ss: seq<string>, step: (Position, string) -> Result<Position, ChessError>)
    requires forall p, s :: step(p, s).Ok? ==> OneMoveOn(p, step(p, s).value)
    requires PlayAll(pos, ss, step).Ok?
    ensures var p := PlayAll(pos, ss, step).value;
      |p.moves| == |pos.moves| + |ss| && p.moves[..|pos.moves|] == pos.moves
      && p.toMove == (if |ss| % 2 == 0 then pos.toMove else Players.Opponent(pos.toMove))
    decreases |ss|
  {
    if |ss| > 0 {
      var next := step(pos, ss[0]).value;
      assert OneMoveOn(pos, next);
      PlayAllHistory(next, ss[1..], step);
    }
  }

  /// A failed run stopped at a string `k` that failed from the position
  /// the strings before it reached, with that string's error.
  lemma {:induction false} PlayAllFailure(pos: Position, ss: seq<string>, step: (Position, string) -> Result<Position, ChessError>) returns (k: nat, at: Position)
    requires PlayAll(pos, ss, step).Err?
    ensures k < |ss| && PlayAll(pos, ss[..k], step) == Ok(at)
    ensures step(at, ss[k]) == Err(PlayAll(pos, ss, step).error)
    decreases |ss|
  {
    match step(pos, ss[0])
    case Err(e) =>
      k, at := 0, pos;
    case Ok(next) =>
      var k', at' := PlayAllFailure(next, ss[1..], step);
      k, at := k' + 1, at';
      assert ss[..k][0] == ss[0] && ss[..k][1..] == ss[1..][..k'];
  }

  /// `after(coordinateMoves:)` adds one move to the history per string.
  lemma AfterCoordinateMovesHistory(pos: Position, ss: seq<string>)
    requires AfterCoordinateMoves(pos, ss).Ok?
    ensures var p := AfterCoordinateMoves(pos, ss).value;
      |p.moves| == |pos.moves| + |ss| && p.moves[..|pos.moves|] == pos.moves
      && p.toMove == (if |ss| % 2 == 0 then pos.toMove else Players.Opponent(pos.toMove))
  {
    forall p, s ensures AfterCoordinateMove(p, s).Ok? ==> OneMoveOn(p, AfterCoordinateMove(p, s).value) {
      AfterCoordinateMoveStep(p, s);
    }
    PlayAllHistory(pos, ss, AfterCoordinateMove);
  }

  /// `after(coordinateMoves:)` stops at the first string that fails, with
  /// that string's error.
  lemma AfterCoordinateMovesFailure(pos: Position, ss: seq<string>) returns (k: nat, at: Position)
    requires AfterCoordinateMoves(pos, ss).Err?
    ensures k < |ss| && AfterCoordinateMoves(pos, ss[..k]) == Ok(at)
    ensures AfterCoordinateMove(at, ss[k]) == Err(AfterCoordinateMoves(pos, ss).error)
  {
    k, at := PlayAllFailure(pos, ss, AfterCoordinateMove);
  }
}
