/// The search of kjchess/bestMove.swift: the move ordering `capturesFirst`,
/// the alpha-beta search `minimaxSearch`, and the root of `bestMove`, which
/// searches every legal move with the full window and keeps the best ones.
/// Scores are whole hundredths of a pawn, as in `Evaluation`; `Infinity`
/// stands for `Double.infinity` and lies above any score the evaluation
/// can give.
module Search {
  import opened Wrappers
  import opened Players
  import opened Moves
  import opened Positions
  import opened MoveGeneration
  import opened Legality
  import opened Evaluation
  import opened ArrayUtils
  import Boards

  const Infinity: int := 1_000_000_000

  function Max(x: int, y: int): int
  {
    if x >= y then x else y
  }

  function Min(x: int, y: int): int
  {
    if x <= y then x else y
  }

  // Move ordering

  /// The material value a move captures; nothing for a move that captures
  /// nothing.
  function CaptureValue(m: Move): int
  {
    match CapturedKind(m)
    case Some(k) => MaterialValue(k)
    case None => 0
  }

  /// `capturesFirst(lhs:rhs:)`.
  predicate CapturesFirst(lhs: Move, rhs: Move)
  {
    if IsCapture(lhs) then
      if !IsCapture(rhs) then true
      else MaterialValue(CapturedPiece(lhs).value.kind) > MaterialValue(CapturedPiece(rhs).value.kind)
    else false
  }

  /// `capturesFirst` ranks moves by what they capture, a quiet move lowest:
  /// it is the strict order of `CaptureValue`, so sorting by it is well
  /// defined.
  lemma CapturesFirstByValue(lhs: Move, rhs: Move)
    ensures CapturesFirst(lhs, rhs) <==> CaptureValue(lhs) > CaptureValue(rhs)
  {
    MaterialOrder();
  }

  /// A capture goes before every quiet move, and a quiet move before none.
  lemma CapturesBeforeQuietMoves(lhs: Move, rhs: Move)
    ensures IsCapture(lhs) && !IsCapture(rhs) ==> CapturesFirst(lhs, rhs)
    ensures !IsCapture(lhs) ==> !CapturesFirst(lhs, rhs)
    ensures CapturesFirst(lhs, rhs) ==> !CapturesFirst(rhs, lhs)
  {
    CapturesFirstByValue(lhs, rhs);
    CapturesFirstByValue(rhs, lhs);
  }

  /// `m` put into `s` in front of the first move that captures no more than
  /// it does.
  function Insert(m: Move, s: seq<Move>): seq<Move>
  {
    if s == [] || !CapturesFirst(s[0], m) then [m] + s else [s[0]] + Insert(m, s[1..])
  }

  /// `moves.sort(by: capturesFirst)`, as an insertion sort.
  function OrderMoves(ms: seq<Move>): seq<Move>
  {
    if ms == [] then [] else Insert(ms[0], OrderMoves(ms[1..]))
  }

  /// No move comes after one it captures more than.
  ghost predicate Ordered(s: seq<Move>)
  {
    forall i, j | 0 <= i < j < |s| :: CaptureValue(s[j]) <= CaptureValue(s[i])
  }

  lemma {:induction false} InsertOrdered(m: Move, s: seq<Move>)
    requires Ordered(s)
    ensures Ordered(Insert(m, s)) && multiset(Insert(m, s)) == multiset(s) + multiset{m}
  {
    if s != [] {
      CapturesFirstByValue(s[0], m);
      if CapturesFirst(s[0], m) {
        InsertOrdered(m, s[1..]);
        InsertBehind(m, s, Insert(m, s[1..]));
      } else {
        InsertInFront(m, s);
      }
    }
  }

  /// A move that captures at least as much as the first goes in front.
  lemma InsertInFront(m: Move, s: seq<Move>)
    requires Ordered(s) && s != [] && CaptureValue(s[0]) <= CaptureValue(m)
    ensures Ordered([m] + s)
  {
    var t := [m] + s;
    forall i, j | 0 <= i < j < |t|
      ensures CaptureValue(t[j]) <= CaptureValue(t[i])
    {
      if i == 0 && j > 1 {
        assert t[j] == s[j - 1];
      }
    }
  }

  /// Behind a first move that captures more, the rest with `m` inserted.
  lemma InsertBehind(m: Move, s: seq<Move>, t: seq<Move>)
    requires Ordered(s) && s != [] && CaptureValue(m) < CaptureValue(s[0])
    requires Ordered(t) && multiset(t) == multiset(s[1..]) + multiset{m}
    ensures Ordered([s[0]] + t) && multiset([s[0]] + t) == multiset(s) + multiset{m}
  {
    var rest := s[1..];
    assert s == [s[0]] + rest;
    forall k | 0 <= k < |t|
      ensures CaptureValue(t[k]) <= CaptureValue(s[0])
    {
      assert t[k] in multiset(t);
      if t[k] != m {
        assert t[k] in multiset(rest);
        var j :| 0 <= j < |rest| && rest[j] == t[k];
        assert s[j + 1] == t[k];
      }
    }
    var u := [s[0]] + t;
    forall i, j | 0 <= i < j < |u|
      ensures CaptureValue(u[j]) <= CaptureValue(u[i])
    {
      if i == 0 {
        assert u[j] == t[j - 1];
      } else {
        assert u[i] == t[i - 1] && u[j] == t[j - 1];
      }
    }
  }

  lemma {:induction false} OrderMovesOrdered(ms: seq<Move>)
    ensures multiset(OrderMoves(ms)) == multiset(ms) && Ordered(OrderMoves(ms))
  {
    if ms != [] {
      OrderMovesOrdered(ms[1..]);
      InsertOrdered(ms[0], OrderMoves(ms[1..]));
      assert ms == [ms[0]] + ms[1..];
    }
  }

  /// The sort keeps every move, and no move ends up behind one that
  /// `capturesFirst` puts after it.
  lemma OrderMovesSorted(ms: seq<Move>)
    ensures multiset(OrderMoves(ms)) == multiset(ms)
    ensures forall i, j | 0 <= i < j < |OrderMoves(ms)| :: !CapturesFirst(OrderMoves(ms)[j], OrderMoves(ms)[i])
  {
    OrderMovesOrdered(ms);
    var t := OrderMoves(ms);
    forall i, j | 0 <= i < j < |t|
      ensures !CapturesFirst(t[j], t[i])
    {
      CapturesFirstByValue(t[j], t[i]);
    }
  }

  // Plain minimax, the reference the search is proved against

  /// Every move of `ms` is a legal move of `pos`.
  predicate AllLegal(pos: Position, ms: seq<Move>)
  {
    forall m | m in ms :: m in LegalMoves(pos)
  }

  /// The ordered legal moves are still the legal moves.
  lemma OrderedMovesLegal(pos: Position)
    ensures AllLegal(pos, OrderMoves(LegalMoves(pos)))
  {
    OrderMovesOrdered(LegalMoves(pos));
    forall m | m in OrderMoves(LegalMoves(pos))
      ensures m in LegalMoves(pos)
    {
      assert m in multiset(OrderMoves(LegalMoves(pos)));
    }
  }

  /// The position after the legal move `m`.
  function Child(pos: Position, m: Move): (c: Position)
    requires m in LegalMoves(pos)
    ensures c.toMove == Opponent(pos.toMove)
  {
    LegalMovesPlaced(pos, m);
    Positions.After(pos, m)
  }

  /// The plies left to search, as a measure of the recursion.
  function Plies(depth: int): nat
  {
    if depth < 1 then 0 else depth
  }

  /// The score a side can do no worse than: −∞ for White, +∞ for Black.
  function Worst(p: Player): int
  {
    if p == White then -Infinity else Infinity
  }

  /// `x` is strictly better than `y` for `p`.
  predicate Improves(p: Player, x: int, y: int)
  {
    if p == White then x > y else x < y
  }

  /// The better of two scores for `p`.
  function BestOf(p: Player, x: int, y: int): int
  {
    if Improves(p, x, y) then x else y
  }

  /// Plain minimax to `depth` plies: the evaluation where the depth runs
  /// out, elsewhere the best child value for the side to move.
  function Minimax(pos: Position, depth: int): int
    decreases Plies(depth), 1, 0
  {
    if depth < 1 then Evaluate(pos)
    else
      assert Plies(depth - 1) + 1 == Plies(depth);
      BestOver(pos, LegalMoves(pos), depth - 1)
  }

  /// The best of the children's minimax values over `ms` for the side to
  /// move; the worst score when `ms` is empty.
  function BestOver(pos: Position, ms: seq<Move>, d: int): int
    requires AllLegal(pos, ms)
    decreases Plies(d) + 1, 0, |ms|
  {
    if ms == [] then Worst(pos.toMove)
    else BestOf(pos.toMove, Minimax(Child(pos, ms[0]), d), BestOver(pos, ms[1..], d))
  }

  /// Minimax values never pass the infinities.
  lemma {:induction false} MinimaxRange(pos: Position, depth: int)
    ensures -Infinity <= Minimax(pos, depth) <= Infinity
    decreases Plies(depth), 1, 0
  {
    if depth < 1 {
      EvaluateBounds(pos);
    } else {
      assert Plies(depth - 1) + 1 == Plies(depth);
      BestOverRange(pos, LegalMoves(pos), depth - 1);
    }
  }

  lemma {:induction false} BestOverRange(pos: Position, ms: seq<Move>, d: int)
    requires AllLegal(pos, ms)
    ensures -Infinity <= BestOver(pos, ms, d) <= Infinity
    decreases Plies(d) + 1, 0, |ms|
  {
    if ms != [] {
      MinimaxRange(Child(pos, ms[0]), d);
      BestOverRange(pos, ms[1..], d);
    }
  }

  /// `BestOver` is the best child value: none is better, and unless `ms`
  /// is empty one of them reaches it.
  lemma {:induction false} BestOverIsBest(pos: Position, ms: seq<Move>, d: int)
    requires AllLegal(pos, ms)
    ensures forall m | m in ms :: !Improves(pos.toMove, Minimax(Child(pos, m), d), BestOver(pos, ms, d))
    ensures !Improves(pos.toMove, Worst(pos.toMove), BestOver(pos, ms, d))
    ensures ms == [] || exists m | m in ms :: Minimax(Child(pos, m), d) == BestOver(pos, ms, d)
  {
    if ms != [] {
      var p := pos.toMove;
      var v := Minimax(Child(pos, ms[0]), d);
      var rest := BestOver(pos, ms[1..], d);
      BestOverIsBest(pos, ms[1..], d);
      MinimaxRange(Child(pos, ms[0]), d);
      assert BestOver(pos, ms, d) == BestOf(p, v, rest);
      forall m | m in ms
        ensures !Improves(p, Minimax(Child(pos, m), d), BestOf(p, v, rest))
      {
        if m != ms[0] {
          assert m in ms[1..];
        }
      }
      if BestOf(p, v, rest) == v {
        assert ms[0] in ms;
      } else {
        var m :| m in ms[1..] && Minimax(Child(pos, m), d) == rest;
        assert m in ms;
      }
    }
  }

  /// The order the moves are searched in does not change the best value.
  lemma BestOverReordered(pos: Position, ms: seq<Move>, ns: seq<Move>, d: int)
    requires AllLegal(pos, ms) && multiset(ms) == multiset(ns)
    ensures AllLegal(pos, ns)
    ensures BestOver(pos, ms, d) == BestOver(pos, ns, d)
  {
    forall m | m in ns
      ensures m in ms
    {
      assert m in multiset(ns);
    }
    forall m | m in ms
      ensures m in ns
    {
      assert m in multiset(ms);
    }
    BestOverIsBest(pos, ms, d);
    BestOverIsBest(pos, ns, d);
  }

  // Alpha-beta, as `minimaxSearch` computes it

  /// The score and principal variation `minimaxSearch` returns.
  datatype SearchResult = SearchResult(score: int, pv: seq<Move>)

  /// `minimaxSearch(position:depth:alpha:beta:)` as a function of the
  /// position it is handed.
  function AlphaBeta(pos: Position, depth: int, alpha: int, beta: int): SearchResult
    decreases Plies(depth), 1, 0
  {
    if depth < 1 then SearchResult(Evaluate(pos), [])
    else
      assert Plies(depth - 1) + 1 == Plies(depth);
      OrderedMovesLegal(pos);
      var moves := OrderMoves(LegalMoves(pos));
      if pos.toMove == White then WhiteLoop(pos, moves, depth - 1, -Infinity, [], alpha, beta)
      else BlackLoop(pos, moves, depth - 1, Infinity, [], alpha, beta)
  }

  /// The White loop of `minimaxSearch` over the moves `ms` still to search,
  /// with the best score and line so far and the window `a`..`b`: a better
  /// child replaces the best, `a` rises to the best, and the loop stops
  /// once `b <= a`.
  function WhiteLoop(pos: Position, ms: seq<Move>, d: int, best: int, pv: seq<Move>, a: int, b: int): SearchResult
    requires AllLegal(pos, ms)
    decreases Plies(d) + 1, 0, |ms|
  {
    if ms == [] then SearchResult(best, pv)
    else
      var r := AlphaBeta(Child(pos, ms[0]), d, a, b);
      var best' := if r.score > best then r.score else best;
      var pv' := if r.score > best then Prepending(r.pv, ms[0]) else pv;
      var a' := Max(a, best');
      if b <= a' then SearchResult(best', pv')
      else WhiteLoop(pos, ms[1..], d, best', pv', a', b)
  }

  /// The Black loop: a lower child replaces the best, `b` falls to the
  /// best, and the loop stops once `b <= a`.
  function BlackLoop(pos: Position, ms: seq<Move>, d: int, best: int, pv: seq<Move>, a: int, b: int): SearchResult
    requires AllLegal(pos, ms)
    decreases Plies(d) + 1, 0, |ms|
  {
    if ms == [] then SearchResult(best, pv)
    else
      var r := AlphaBeta(Child(pos, ms[0]), d, a, b);
      var best' := if r.score < best then r.score else best;
      var pv' := if r.score < best then Prepending(r.pv, ms[0]) else pv;
      var b' := Min(b, best');
      if b' <= a then SearchResult(best', pv')
      else BlackLoop(pos, ms[1..], d, best', pv', a, b')
  }

  /// One step of `AlphaBeta` with depth left: the loop of the side to move
  /// over the ordered legal moves, from the worst score and an empty line.
  lemma AlphaBetaStep(pos: Position, depth: int, alpha: int, beta: int)
    requires depth >= 1
    ensures AllLegal(pos, OrderMoves(LegalMoves(pos)))
    ensures pos.toMove == White ==>
      AlphaBeta(pos, depth, alpha, beta) == WhiteLoop(pos, OrderMoves(LegalMoves(pos)), depth - 1, -Infinity, [], alpha, beta)
    ensures pos.toMove == Black ==>
      AlphaBeta(pos, depth, alpha, beta) == BlackLoop(pos, OrderMoves(LegalMoves(pos)), depth - 1, Infinity, [], alpha, beta)
  {
    OrderedMovesLegal(pos);
  }

  /// `v` cut to the window `lo`..`hi`.
  function Clamp(v: int, lo: int, hi: int): int
  {
    Min(Max(v, lo), hi)
  }

  /// Alpha-beta is exact inside its window: for any window between the
  /// infinities, its score cut to `alpha`..`beta` is the minimax value cut
  /// to the same window, and it never passes the infinities itself.
  lemma {:induction false} AlphaBetaWindow(pos: Position, depth: int, alpha: int, beta: int)
    requires -Infinity <= alpha < beta <= Infinity
    ensures Clamp(AlphaBeta(pos, depth, alpha, beta).score, alpha, beta) == Clamp(Minimax(pos, depth), alpha, beta)
    ensures -Infinity <= AlphaBeta(pos, depth, alpha, beta).score <= Infinity
    decreases Plies(depth), 1, 0
  {
    if depth < 1 {
      EvaluateBounds(pos);
    } else {
      assert Plies(depth - 1) + 1 == Plies(depth);
      AlphaBetaStep(pos, depth, alpha, beta);
      var moves := OrderMoves(LegalMoves(pos));
      OrderMovesOrdered(LegalMoves(pos));
      BestOverReordered(pos, LegalMoves(pos), moves, depth - 1);
      var value := BestOver(pos, moves, depth - 1);
      assert Minimax(pos, depth) == value;
      MinimaxRange(pos, depth);
      if pos.toMove == White {
        WhiteLoopWindow(pos, moves, depth - 1, -Infinity, [], alpha, alpha, beta);
        assert Max(-Infinity, value) == value;
      } else {
        BlackLoopWindow(pos, moves, depth - 1, Infinity, [], beta, alpha, beta);
        assert Min(Infinity, value) == value;
      }
    }
  }

  /// The White loop with `a` the larger of `alpha` and the best so far
  /// ends, cut to `alpha`..`beta`, with the better of the best so far and
  /// the moves still to search.
  lemma {:induction false} WhiteLoopWindow(pos: Position, ms: seq<Move>, d: int, best: int, pv: seq<Move>, a: int, alpha: int, beta: int)
    requires AllLegal(pos, ms) && pos.toMove == White
    requires -Infinity <= alpha && beta <= Infinity
    requires a == Max(alpha, best) && a < beta && -Infinity <= best <= Infinity
    ensures Clamp(WhiteLoop(pos, ms, d, best, pv, a, beta).score, alpha, beta) == Clamp(Max(best, BestOver(pos, ms, d)), alpha, beta)
    ensures -Infinity <= WhiteLoop(pos, ms, d, best, pv, a, beta).score <= Infinity
    decreases Plies(d) + 1, 0, |ms|
  {
    if ms != [] {
      var c := Child(pos, ms[0]);
      AlphaBetaWindow(c, d, a, beta);
      var r := AlphaBeta(c, d, a, beta).score;
      var v := Minimax(c, d);
      var best' := if r > best then r else best;
      var pv' := if r > best then Prepending(AlphaBeta(c, d, a, beta).pv, ms[0]) else pv;
      var a' := Max(a, best');
      var rest := BestOver(pos, ms[1..], d);
      assert BestOver(pos, ms, d) == Max(v, rest);
      WhiteStep(alpha, beta, best, a, r, v, rest);
      if a' < beta {
        WhiteLoopWindow(pos, ms[1..], d, best', pv', a', alpha, beta);
        assert WhiteLoop(pos, ms, d, best, pv, a, beta) == WhiteLoop(pos, ms[1..], d, best', pv', a', beta);
      } else {
        assert WhiteLoop(pos, ms, d, best, pv, a, beta) == SearchResult(best', pv');
      }
    }
  }

  /// One pass of the White loop in arithmetic: the child's score `r` is
  /// exact in the window `a`..`beta`, and the best so far and `a` move up
  /// without changing what the rest of the loop must reach.
  lemma WhiteStep(alpha: int, beta: int, best: int, a: int, r: int, v: int, rest: int)
    requires -Infinity <= alpha && beta <= Infinity && -Infinity <= best <= Infinity
    requires a == Max(alpha, best) && a < beta
    requires Clamp(r, a, beta) == Clamp(v, a, beta) && -Infinity <= r <= Infinity
    ensures var best' := if r > best then r else best;
      && -Infinity <= best' <= Infinity
      && Max(a, best') == Max(alpha, best')
      && (beta <= Max(a, best') ==> Clamp(best', alpha, beta) == Clamp(Max(best, Max(v, rest)), alpha, beta))
      && (Max(a, best') < beta ==> Clamp(Max(best', rest), alpha, beta) == Clamp(Max(best, Max(v, rest)), alpha, beta))
  {
  }

  /// One pass of the Black loop in arithmetic, the mirror of `WhiteStep`.
  lemma BlackStep(alpha: int, beta: int, best: int, b: int, r: int, v: int, rest: int)
    requires -Infinity <= alpha && beta <= Infinity && -Infinity <= best <= Infinity
    requires b == Min(beta, best) && alpha < b
    requires Clamp(r, alpha, b) == Clamp(v, alpha, b) && -Infinity <= r <= Infinity
    ensures var best' := if r < best then r else best;
      && -Infinity <= best' <= Infinity
      && Min(b, best') == Min(beta, best')
      && (Min(b, best') <= alpha ==> Clamp(best', alpha, beta) == Clamp(Min(best, Min(v, rest)), alpha, beta))
      && (alpha < Min(b, best') ==> Clamp(Min(best', rest), alpha, beta) == Clamp(Min(best, Min(v, rest)), alpha, beta))
  {
  }

  /// The Black loop with `b` the smaller of `beta` and the best so far.
  lemma {:induction false} BlackLoopWindow(pos: Position, ms: seq<Move>, d: int, best: int, pv: seq<Move>, b: int, alpha: int, beta: int)
    requires AllLegal(pos, ms) && pos.toMove == Black
    requires -Infinity <= alpha && beta <= Infinity
    requires b == Min(beta, best) && alpha < b && -Infinity <= best <= Infinity
    ensures Clamp(BlackLoop(pos, ms, d, best, pv, alpha, b).score, alpha, beta) == Clamp(Min(best, BestOver(pos, ms, d)), alpha, beta)
    ensures -Infinity <= BlackLoop(pos, ms, d, best, pv, alpha, b).score <= Infinity
    decreases Plies(d) + 1, 0, |ms|
  {
    if ms != [] {
      var c := Child(pos, ms[0]);
      AlphaBetaWindow(c, d, alpha, b);
      var r := AlphaBeta(c, d, alpha, b).score;
      var v := Minimax(c, d);
      var best' := if r < best then r else best;
      var pv' := if r < best then Prepending(AlphaBeta(c, d, alpha, b).pv, ms[0]) else pv;
      var b' := Min(b, best');
      var rest := BestOver(pos, ms[1..], d);
      assert BestOver(pos, ms, d) == Min(v, rest);
      BlackStep(alpha, beta, best, b, r, v, rest);
      if alpha < b' {
        BlackLoopWindow(pos, ms[1..], d, best', pv', b', alpha, beta);
        assert BlackLoop(pos, ms, d, best, pv, alpha, b) == BlackLoop(pos, ms[1..], d, best', pv', alpha, b');
      } else {
        assert BlackLoop(pos, ms, d, best, pv, alpha, b) == SearchResult(best', pv');
      }
    }
  }

  /// With the full window the root passes in, alpha-beta gives the minimax
  /// value itself.
  lemma AlphaBetaFullWindow(pos: Position, depth: int)
    ensures AlphaBeta(pos, depth, -Infinity, Infinity).score == Minimax(pos, depth)
  {
    AlphaBetaWindow(pos, depth, -Infinity, Infinity);
    MinimaxRange(pos, depth);
  }

  /// Where the depth has run out the search returns the evaluation and no
  /// line; with depth left and no legal move, the worst score for the side
  /// to move and no line: there is no separate mate or stalemate score.
  lemma AlphaBetaLeafCases(pos: Position, depth: int, alpha: int, beta: int)
    ensures depth < 1 ==> AlphaBeta(pos, depth, alpha, beta) == SearchResult(Evaluate(pos), [])
    ensures depth >= 1 && LegalMoves(pos) == [] ==>
      AlphaBeta(pos, depth, alpha, beta) == SearchResult(Worst(pos.toMove), [])
  {
    if depth >= 1 && LegalMoves(pos) == [] {
      assert OrderMoves(LegalMoves(pos)) == [];
    }
  }

  // The principal variation

  /// `line` can be played move after move from `pos`, each move legal
  /// where it is played.
  ghost predicate IsLine(pos: Position, line: seq<Move>)
    decreases |line|
  {
    line == [] || (line[0] in LegalMoves(pos) && IsLine(Child(pos, line[0]), line[1..]))
  }

  /// The principal variation is a line of legal moves from the position,
  /// no longer than the depth searched.
  lemma {:induction false} AlphaBetaLine(pos: Position, depth: int, alpha: int, beta: int)
    ensures IsLine(pos, AlphaBeta(pos, depth, alpha, beta).pv)
    ensures |AlphaBeta(pos, depth, alpha, beta).pv| <= Plies(depth)
    decreases Plies(depth), 1, 0
  {
    if depth >= 1 {
      assert Plies(depth - 1) + 1 == Plies(depth);
      OrderedMovesLegal(pos);
      var moves := OrderMoves(LegalMoves(pos));
      if pos.toMove == White {
        WhiteLoopLine(pos, moves, depth - 1, -Infinity, [], alpha, beta);
      } else {
        BlackLoopLine(pos, moves, depth - 1, Infinity, [], alpha, beta);
      }
    }
  }

  /// A line that starts with the legal move `m` and goes on with a line of
  /// the position after it.
  lemma PrependLine(pos: Position, m: Move, line: seq<Move>)
    requires m in LegalMoves(pos) && IsLine(Child(pos, m), line)
    ensures IsLine(pos, Prepending(line, m))
  {
    assert Prepending(line, m)[1..] == line;
  }

  lemma {:induction false} WhiteLoopLine(pos: Position, ms: seq<Move>, d: int, best: int, pv: seq<Move>, a: int, b: int)
    requires AllLegal(pos, ms) && IsLine(pos, pv) && |pv| <= Plies(d) + 1
    ensures IsLine(pos, WhiteLoop(pos, ms, d, best, pv, a, b).pv)
    ensures |WhiteLoop(pos, ms, d, best, pv, a, b).pv| <= Plies(d) + 1
    decreases Plies(d) + 1, 0, |ms|
  {
    if ms != [] {
      var r := AlphaBeta(Child(pos, ms[0]), d, a, b);
      AlphaBetaLine(Child(pos, ms[0]), d, a, b);
      PrependLine(pos, ms[0], r.pv);
      var best' := if r.score > best then r.score else best;
      var pv' := if r.score > best then Prepending(r.pv, ms[0]) else pv;
      WhiteLoopLine(pos, ms[1..], d, best', pv', Max(a, best'), b);
    }
  }

  lemma {:induction false} BlackLoopLine(pos: Position, ms: seq<Move>, d: int, best: int, pv: seq<Move>, a: int, b: int)
    requires AllLegal(pos, ms) && IsLine(pos, pv) && |pv| <= Plies(d) + 1
    ensures IsLine(pos, BlackLoop(pos, ms, d, best, pv, a, b).pv)
    ensures |BlackLoop(pos, ms, d, best, pv, a, b).pv| <= Plies(d) + 1
    decreases Plies(d) + 1, 0, |ms|
  {
    if ms != [] {
      var r := AlphaBeta(Child(pos, ms[0]), d, a, b);
      AlphaBetaLine(Child(pos, ms[0]), d, a, b);
      PrependLine(pos, ms[0], r.pv);
      var best' := if r.score < best then r.score else best;
      var pv' := if r.score < best then Prepending(r.pv, ms[0]) else pv;
      BlackLoopLine(pos, ms[1..], d, best', pv', a, Min(b, best'));
    }
  }

  // `minimaxSearch` itself

  /// The `inout` position `minimaxSearch` works on: `Apply` plays a legal
  /// move and hands back what `Unapply` needs to take it back.
  class SearchPosition {
    var position: Position

    constructor(p: Position)
      ensures position == p
    {
      position := p;
    }

    method Apply(m: Move) returns (undo: Position)
      requires m in LegalMoves(position)
      modifies this
      ensures position == Child(old(position), m) && undo == old(position)
    {
      undo := position;
      position := Child(position, m);
    }

    method Unapply(undo: Position)
      modifies this
      ensures position == undo
    {
      position := undo;
    }
  }

  /// `minimaxSearch(position:depth:alpha:beta:)`: every `apply` is paired
  /// with an `unapply`, so the position is as it was when the search
  /// returns, and the score and line are those of `AlphaBeta`. The loops of
  /// the two sides are the methods `SearchWhiteMoves` and `SearchBlackMoves`.
  method MinimaxSearch(state: SearchPosition, depth: int, alpha: int, beta: int) returns (score: int, pv: seq<Move>)
    modifies state
    ensures state.position == old(state.position)
    ensures SearchResult(score, pv) == AlphaBeta(old(state.position), depth, alpha, beta)
    decreases Plies(depth), 1
  {
    if depth < 1 {
      return Evaluate(state.position), [];
    }
    assert Plies(depth - 1) + 1 == Plies(depth);
    AlphaBetaStep(state.position, depth, alpha, beta);
    var moves := OrderMoves(LegalMoves(state.position));
    if state.position.toMove == White {
      score, pv := SearchWhiteMoves(state, moves, depth - 1, alpha, beta);
    } else {
      score, pv := SearchBlackMoves(state, moves, depth - 1, alpha, beta);
    }
  }

  /// The White loop of `minimaxSearch` over `moves`, searching each child
  /// `d` plies deep.
  method SearchWhiteMoves(state: SearchPosition, moves: seq<Move>, d: int, alpha: int, beta: int)
    returns (score: int, pv: seq<Move>)
    requires AllLegal(state.position, moves)
    modifies state
    ensures state.position == old(state.position)
    ensures SearchResult(score, pv) == WhiteLoop(old(state.position), moves, d, -Infinity, [], alpha, beta)
    decreases Plies(d) + 1, 0
  {
    ghost var pos := state.position;
    var a, b := alpha, beta;
    score, pv := -Infinity, [];
    var i := 0;
    assert moves[i..] == moves;
    while i < |moves|
      invariant 0 <= i <= |moves| && state.position == pos
      invariant AllLegal(pos, moves[i..])
      invariant WhiteLoop(pos, moves[i..], d, score, pv, a, b) == WhiteLoop(pos, moves, d, -Infinity, [], alpha, beta)
    {
      var move := moves[i];
      assert moves[i..][0] == move && moves[i..][1..] == moves[i + 1..];
      var undo := state.Apply(move);
      var moveScore, movePV := MinimaxSearch(state, d, a, b);
      state.Unapply(undo);
      if moveScore > score {
        score := moveScore;
        pv := Prepending(movePV, move);
      }
      a := Max(a, score);
      if b <= a {
        break;
      }
      i := i + 1;
    }
  }

  /// The Black loop of `minimaxSearch`.
  method SearchBlackMoves(state: SearchPosition, moves: seq<Move>, d: int, alpha: int, beta: int)
    returns (score: int, pv: seq<Move>)
    requires AllLegal(state.position, moves)
    modifies state
    ensures state.position == old(state.position)
    ensures SearchResult(score, pv) == BlackLoop(old(state.position), moves, d, Infinity, [], alpha, beta)
    decreases Plies(d) + 1, 0
  {
    ghost var pos := state.position;
    var a, b := alpha, beta;
    score, pv := Infinity, [];
    var i := 0;
    assert moves[i..] == moves;
    while i < |moves|
      invariant 0 <= i <= |moves| && state.position == pos
      invariant AllLegal(pos, moves[i..])
      invariant BlackLoop(pos, moves[i..], d, score, pv, a, b) == BlackLoop(pos, moves, d, Infinity, [], alpha, beta)
    {
      var move := moves[i];
      assert moves[i..][0] == move && moves[i..][1..] == moves[i + 1..];
      var undo := state.Apply(move);
      var moveScore, movePV := MinimaxSearch(state, d, a, b);
      state.Unapply(undo);
      if moveScore < score {
        score := moveScore;
        pv := Prepending(movePV, move);
      }
      b := Min(b, score);
      if b <= a {
        break;
      }
      i := i + 1;
    }
  }

  // The root of `bestMove`

  /// An entry of `bestMoves`: a root move and its principal variation.
  datatype Candidate = Candidate(move: Move, pv: seq<Move>)

  /// `bestScore` and `bestMoves` once the root loop is over.
  datatype RootResult = RootResult(score: int, candidates: seq<Candidate>)

  /// The root loop of `bestMove` over the moves `ms` still to search: each
  /// is searched `d` plies deep with the full window; a strictly better
  /// score for the side to move replaces the candidates, an equal score
  /// joins them.
  function RootLoop(pos: Position, ms: seq<Move>, d: int, bestScore: int, bestMoves: seq<Candidate>): RootResult
    requires AllLegal(pos, ms)
    decreases |ms|
  {
    if ms == [] then RootResult(bestScore, bestMoves)
    else
      var r := AlphaBeta(Child(pos, ms[0]), d, -Infinity, Infinity);
      var c := Candidate(ms[0], Prepending(r.pv, ms[0]));
      if Improves(pos.toMove, r.score, bestScore) then RootLoop(pos, ms[1..], d, r.score, [c])
      else if r.score == bestScore then RootLoop(pos, ms[1..], d, bestScore, Appending(bestMoves, c))
      else RootLoop(pos, ms[1..], d, bestScore, bestMoves)
  }

  /// The root loop ends with the better of the score it started from and
  /// the best minimax value of the moves it searched.
  lemma {:induction false} RootLoopScore(pos: Position, ms: seq<Move>, d: int, bestScore: int, bestMoves: seq<Candidate>)
    requires AllLegal(pos, ms) && -Infinity <= bestScore <= Infinity
    ensures RootLoop(pos, ms, d, bestScore, bestMoves).score == BestOf(pos.toMove, BestOver(pos, ms, d), bestScore)
    decreases |ms|
  {
    if ms != [] {
      var c := Child(pos, ms[0]);
      var r := AlphaBeta(c, d, -Infinity, Infinity);
      AlphaBetaFullWindow(c, d);
      MinimaxRange(c, d);
      assert BestOver(pos, ms, d) == BestOf(pos.toMove, r.score, BestOver(pos, ms[1..], d));
      var c' := Candidate(ms[0], Prepending(r.pv, ms[0]));
      if Improves(pos.toMove, r.score, bestScore) {
        RootLoopScore(pos, ms[1..], d, r.score, [c']);
        assert RootLoop(pos, ms, d, bestScore, bestMoves) == RootLoop(pos, ms[1..], d, r.score, [c']);
      } else if r.score == bestScore {
        RootLoopScore(pos, ms[1..], d, bestScore, Appending(bestMoves, c'));
        assert RootLoop(pos, ms, d, bestScore, bestMoves) == RootLoop(pos, ms[1..], d, bestScore, Appending(bestMoves, c'));
      } else {
        RootLoopScore(pos, ms[1..], d, bestScore, bestMoves);
        assert RootLoop(pos, ms, d, bestScore, bestMoves) == RootLoop(pos, ms[1..], d, bestScore, bestMoves);
      }
    }
  }

  /// `c` is a candidate worth `score`: a legal move whose minimax value is
  /// `score`, with the line the full-window search found after it.
  ghost predicate Supports(pos: Position, d: int, score: int, c: Candidate)
  {
    c.move in LegalMoves(pos)
    && c.pv == Prepending(AlphaBeta(Child(pos, c.move), d, -Infinity, Infinity).pv, c.move)
    && Minimax(Child(pos, c.move), d) == score
  }

  /// Every candidate the root loop keeps is worth the final score, and it
  /// keeps at least one as soon as there was a move to search.
  lemma {:induction false} RootLoopCandidates(pos: Position, ms: seq<Move>, d: int, bestScore: int, bestMoves: seq<Candidate>)
    requires AllLegal(pos, ms) && -Infinity <= bestScore <= Infinity
    requires bestMoves == [] ==> bestScore == Worst(pos.toMove)
    requires forall c | c in bestMoves :: Supports(pos, d, bestScore, c)
    ensures RootLoop(pos, ms, d, bestScore, bestMoves).candidates == [] <==> ms == [] && bestMoves == []
    ensures forall c | c in RootLoop(pos, ms, d, bestScore, bestMoves).candidates ::
      Supports(pos, d, RootLoop(pos, ms, d, bestScore, bestMoves).score, c)
    decreases |ms|
  {
    if ms != [] {
      var ch := Child(pos, ms[0]);
      var r := AlphaBeta(ch, d, -Infinity, Infinity);
      AlphaBetaFullWindow(ch, d);
      MinimaxRange(ch, d);
      var c := Candidate(ms[0], Prepending(r.pv, ms[0]));
      assert Supports(pos, d, r.score, c);
      if Improves(pos.toMove, r.score, bestScore) {
        RootLoopCandidates(pos, ms[1..], d, r.score, [c]);
      } else if r.score == bestScore {
        RootLoopCandidates(pos, ms[1..], d, bestScore, Appending(bestMoves, c));
      } else {
        RootLoopCandidates(pos, ms[1..], d, bestScore, bestMoves);
      }
    }
  }

  /// Candidates already held survive when the score does not change.
  lemma {:induction false} RootLoopKeeps(pos: Position, ms: seq<Move>, d: int, bestScore: int, bestMoves: seq<Candidate>)
    requires AllLegal(pos, ms) && -Infinity <= bestScore <= Infinity
    ensures RootLoop(pos, ms, d, bestScore, bestMoves).score == bestScore ==>
      forall c | c in bestMoves :: c in RootLoop(pos, ms, d, bestScore, bestMoves).candidates
    decreases |ms|
  {
    if ms != [] {
      var ch := Child(pos, ms[0]);
      var r := AlphaBeta(ch, d, -Infinity, Infinity);
      AlphaBetaFullWindow(ch, d);
      MinimaxRange(ch, d);
      var c := Candidate(ms[0], Prepending(r.pv, ms[0]));
      if Improves(pos.toMove, r.score, bestScore) {
        RootLoopScore(pos, ms[1..], d, r.score, [c]);
      } else if r.score == bestScore {
        RootLoopKeeps(pos, ms[1..], d, bestScore, Appending(bestMoves, c));
      } else {
        RootLoopKeeps(pos, ms[1..], d, bestScore, bestMoves);
      }
    }
  }

  /// Every move searched whose value is the final score is among the
  /// candidates: ties are all collected.
  lemma {:induction false} RootLoopComplete(pos: Position, ms: seq<Move>, d: int, bestScore: int, bestMoves: seq<Candidate>, m: Move)
    requires AllLegal(pos, ms) && m in ms && -Infinity <= bestScore <= Infinity
    requires Minimax(Child(pos, m), d) == RootLoop(pos, ms, d, bestScore, bestMoves).score
    ensures exists c | c in RootLoop(pos, ms, d, bestScore, bestMoves).candidates :: c.move == m
    decreases |ms|
  {
    var ch := Child(pos, ms[0]);
    var r := AlphaBeta(ch, d, -Infinity, Infinity);
    AlphaBetaFullWindow(ch, d);
    MinimaxRange(ch, d);
    var c := Candidate(ms[0], Prepending(r.pv, ms[0]));
    if m != ms[0] {
      assert m in ms[1..];
      if Improves(pos.toMove, r.score, bestScore) {
        RootLoopComplete(pos, ms[1..], d, r.score, [c], m);
      } else if r.score == bestScore {
        RootLoopComplete(pos, ms[1..], d, bestScore, Appending(bestMoves, c), m);
      } else {
        RootLoopComplete(pos, ms[1..], d, bestScore, bestMoves, m);
      }
    } else if Improves(pos.toMove, r.score, bestScore) {
      RootLoopScore(pos, ms[1..], d, r.score, [c]);
      RootLoopKeeps(pos, ms[1..], d, r.score, [c]);
      assert c in [c];
    } else if r.score == bestScore {
      RootLoopScore(pos, ms[1..], d, bestScore, Appending(bestMoves, c));
      RootLoopKeeps(pos, ms[1..], d, bestScore, Appending(bestMoves, c));
      assert c in Appending(bestMoves, c);
    } else {
      RootLoopScore(pos, ms[1..], d, bestScore, bestMoves);
    }
  }

  /// What `bestMove` returns: the move, its score and its principal
  /// variation.
  datatype Choice = Choice(move: Move, score: int, pv: seq<Move>)

  /// `bestMove(position:searchDepth:concurrentTasks:)`, with the root moves
  /// searched one after the other. The shuffle and the pick among equally
  /// good moves are nondeterministic, so the contract holds whichever order
  /// and pick the random numbers give: `None` exactly when there is no legal
  /// move, otherwise a legal move whose minimax value is the best the side
  /// to move can get, with a line of legal moves that starts with it.
  method BestMove(pos: Position, searchDepth: int) returns (result: Option<Choice>)
    ensures result.None? <==> LegalMoves(pos) == []
    ensures result.Some? ==>
      && result.value.move in LegalMoves(pos)
      && result.value.score == BestOver(pos, LegalMoves(pos), searchDepth - 1)
      && Minimax(Child(pos, result.value.move), searchDepth - 1) == result.value.score
      && (searchDepth >= 1 ==> result.value.score == Minimax(pos, searchDepth))
      && |result.value.pv| >= 1 && result.value.pv[0] == result.value.move
      && IsLine(pos, result.value.pv)
  {
    var legal := LegalMoves(pos);
    var buffer := MoveArray(legal);
    Shuffle(buffer);
    var moves := buffer[..];
    forall m | m in moves
      ensures m in legal
    {
      assert m in multiset(moves);
    }
    var d := searchDepth - 1;
    var bestScore, bestMoves := SearchRootMoves(pos, moves, d);
    RootOutcome(pos, legal, moves, d, bestScore, bestMoves);
    var draw: nat := 0;
    if |bestMoves| > 0 {
      draw :| draw < |bestMoves|;
    }
    match RandomPick(bestMoves, draw)
    case Some(c) =>
      result := Some(Choice(c.move, bestScore, c.pv));
    case None =>
      result := None;
  }

  /// A new array holding `ms`, for `shuffle` to work on in place.
  method MoveArray(ms: seq<Move>) returns (a: array<Move>)
    ensures fresh(a) && a[..] == ms
  {
    a := new Move[|ms|](i requires 0 <= i < |ms| => ms[i]);
  }

  /// The root loop of `bestMove`: each move is searched `d` plies deep on
  /// a position of its own, with the full window.
  method SearchRootMoves(pos: Position, moves: seq<Move>, d: int) returns (bestScore: int, bestMoves: seq<Candidate>)
    requires AllLegal(pos, moves)
    ensures RootResult(bestScore, bestMoves) == RootLoop(pos, moves, d, Worst(pos.toMove), [])
  {
    bestScore, bestMoves := Worst(pos.toMove), [];
    for i := 0 to |moves|
      invariant AllLegal(pos, moves[i..])
      invariant RootLoop(pos, moves[i..], d, bestScore, bestMoves) == RootLoop(pos, moves, d, Worst(pos.toMove), [])
    {
      var move := moves[i];
      assert moves[i..][0] == move && moves[i..][1..] == moves[i + 1..];
      var state := new SearchPosition(Child(pos, move));
      var moveScore, movePV := MinimaxSearch(state, d, -Infinity, Infinity);
      if Improves(pos.toMove, moveScore, bestScore) {
        bestScore := moveScore;
        bestMoves := [Candidate(move, Prepending(movePV, move))];
      } else if moveScore == bestScore {
        bestMoves := Appending(bestMoves, Candidate(move, Prepending(movePV, move)));
      }
    }
    assert moves[|moves|..] == [];
  }

  /// What the root loop leaves behind, for the shuffled legal moves `ms`.
  lemma RootOutcome(pos: Position, legal: seq<Move>, ms: seq<Move>, d: int, bestScore: int, bestMoves: seq<Candidate>)
    requires legal == LegalMoves(pos) && multiset(ms) == multiset(legal) && AllLegal(pos, ms)
    requires RootResult(bestScore, bestMoves) == RootLoop(pos, ms, d, Worst(pos.toMove), [])
    ensures bestMoves == [] <==> legal == []
    ensures bestScore == BestOver(pos, legal, d)
    ensures d >= 0 ==> bestScore == Minimax(pos, d + 1)
    ensures forall c | c in bestMoves ::
      c.move in legal && Minimax(Child(pos, c.move), d) == bestScore
      && |c.pv| >= 1 && c.pv[0] == c.move && IsLine(pos, c.pv)
  {
    assert ms == [] <==> legal == [] by {
      assert |ms| == |multiset(ms)| == |multiset(legal)| == |legal|;
    }
    RootLoopCandidates(pos, ms, d, Worst(pos.toMove), []);
    RootLoopScore(pos, ms, d, Worst(pos.toMove), []);
    BestOverRange(pos, ms, d);
    BestOverReordered(pos, ms, legal, d);
    forall c | c in bestMoves
      ensures |c.pv| >= 1 && c.pv[0] == c.move && IsLine(pos, c.pv)
    {
      assert Supports(pos, d, bestScore, c);
      AlphaBetaLine(Child(pos, c.move), d, -Infinity, Infinity);
      PrependLine(pos, c.move, AlphaBeta(Child(pos, c.move), d, -Infinity, Infinity).pv);
    }
  }

  /// With White to move on an empty board there is no legal move, so
  /// `bestMove` hands `shuffle` an empty array: the input on which the
  /// range `0..<(count - 1)` of `ShuffleAsWritten` traps.
  lemma NoLegalMovesOnEmptyBoard()
    ensures LegalMoves(MakePosition(Boards.EmptyBoard, White, [])) == []
  {
    var pos := MakePosition(Boards.EmptyBoard, White, []);
    var b := pos.board;
    Boards.PiecesFromExact(b, White, 0);
    Boards.KingFromFirst(b, White, 0);
    LegalMovesCases(pos);
  }
}
