/// The array helpers the search uses (kjchess/Array_appending.swift,
/// kjchess/Array_appendRepeating.swift, kjchess/Array_shuffle.swift,
/// kjchess/Array_randomPick.swift). Swift arrays are values: a helper that
/// returns a new array is a function on sequences, a `mutating` helper that
/// appends is a method from the old sequence to the new one, and `shuffle`,
/// which swaps elements in place, works on an `array`. The random numbers
/// `arc4random_uniform` draws are a nondeterministic choice in `shuffle` and
/// a parameter of `RandomPick`.
module ArrayUtils {
  import opened Wrappers

  /// `appending(_:)`: a copy with `e` after the last element.
  function Appending<T>(a: seq<T>, e: T): (r: seq<T>)
    ensures |r| == |a| + 1 && r[..|a|] == a && r[|a|] == e
  {
    a + [e]
  }

  /// `prepending(_:)`: a copy with `e` before the first element.
  function Prepending<T>(a: seq<T>, e: T): (r: seq<T>)
    ensures |r| == |a| + 1 && r[0] == e && r[1..] == a
  {
    [e] + a
  }

  /// Regrouping a concatenation; stated on its own so that proofs about
  /// appended lists need not unfold what is appended. A proof aid with no
  /// Swift counterpart, used by the generator loops of `MoveGeneration`
  /// (`AddStepMoves`, `AddSlideRay`, `AddPawnMoves`, ...), by
  /// `Fen.ReplaceAllShortRun` and by `CommandLine.PlainArgumentsInOrder`.
  lemma AppendAssociates<T>(a: seq<T>, b: seq<T>, c: seq<T>)
    ensures a + (b + c) == a + b + c
  {
  }

  /// `appendRepeating(element:count:)`: `count` copies of `e` appended one
  /// at a time. A negative count makes the Swift range trap.
  method AppendRepeating<T>(a: seq<T>, e: T, count: int) returns (r: seq<T>)
    requires count >= 0
    ensures |r| == |a| + count && r[..|a|] == a
    ensures forall k :: |a| <= k < |r| ==> r[k] == e
  {
    r := a;
    for i := 0 to count
      invariant |r| == |a| + i && r[..|a|] == a
      invariant forall k :: |a| <= k < |r| ==> r[k] == e
    {
      r := r + [e];
    }
  }

  /// `shuffle()` as written: step `i` swaps position `i` with a position
  /// drawn from `i` up to the end, for `i` in `0..<(count - 1)`. That range
  /// traps when the array is empty, which is why the array must hold at
  /// least one element.
  method ShuffleAsWritten<T>(a: array<T>)
    requires a.Length >= 1
    modifies a
    ensures multiset(a[..]) == multiset(old(a[..]))
  {
    ShuffleSteps(a, a.Length - 1);
  }

  /// `shuffle()` with the range the Swift code evidently intends: no steps
  /// for an empty array.
  method Shuffle<T>(a: array<T>)
    modifies a
    ensures multiset(a[..]) == multiset(old(a[..]))
  {
    if a.Length > 0 {
      ShuffleSteps(a, a.Length - 1);
    }
  }

  /// The swapping loop of `shuffle()`, run for `i` in `0..<steps`.
  method ShuffleSteps<T>(a: array<T>, steps: nat)
    requires steps <= a.Length
    modifies a
    ensures multiset(a[..]) == multiset(old(a[..]))
  {
    for i := 0 to steps
      invariant multiset(a[..]) == multiset(old(a[..]))
    {
      ghost var before := a[..];
      var swapIndex :| i <= swapIndex < a.Length;
      if swapIndex != i {
        var temp := a[i];
        a[i] := a[swapIndex];
        a[swapIndex] := temp;
        assert a[..] == before[i := before[swapIndex]][swapIndex := before[i]];
      }
    }
  }

  /// `randomPick()`: `None` for an empty array, otherwise the element at
  /// the position `arc4random_uniform(count)` drew, passed as `draw`.
  function RandomPick<T>(a: seq<T>, draw: nat): (r: Option<T>)
    requires |a| > 0 ==> draw < |a|
    ensures r.None? <==> |a| == 0
    ensures r.Some? ==> r.value == a[draw] && r.value in a
    ensures |a| == 1 ==> r == Some(a[0])
  {
    if |a| > 0 then Some(a[draw]) else None
  }
}
