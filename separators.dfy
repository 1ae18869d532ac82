/// Splitting a string at a one-character separator and joining pieces with
/// it, as Foundation's `components(separatedBy:)` and `joined(separator:)`
/// do. The board FEN splits and joins its ranks at '/'
/// (kjchess/FEN.swift), and the command-line parser
/// splits "name=value" at '='
/// (kjchess-cli/CommandLineParseResult.swift).
module Separators {
  /// `components(separatedBy:)` for a one-character separator: the pieces
  /// between separators, one more than there are separators, so never empty.
  function Components(s: string, sep: char): (r: seq<string>)
    ensures |r| >= 1
  {
    if |s| == 0 then [""]
    else
      var tail := Components(s[1..], sep);
      if s[0] == sep then [""] + tail
      else [[s[0]] + tail[0]] + tail[1..]
  }

  /// The pieces put back together with the separator between them.
  function Join(parts: seq<string>, sep: char): string
    requires |parts| >= 1
  {
    if |parts| == 1 then parts[0] else parts[0] + [sep] + Join(parts[1..], sep)
  }

  /// There is one component more than there are separators, and none of
  /// them holds a separator.
  lemma {:induction false} ComponentsCount(s: string, sep: char)
    ensures |Components(s, sep)| == multiset(s)[sep] + 1
    ensures forall i :: 0 <= i < |Components(s, sep)| ==> sep !in Components(s, sep)[i]
  {
    if |s| > 0 {
      assert s == [s[0]] + s[1..];
      assert multiset(s) == multiset([s[0]]) + multiset(s[1..]);
      ComponentsCount(s[1..], sep);
      var tail := Components(s[1..], sep);
      if s[0] != sep {
        var head := [s[0]] + tail[0];
        assert Components(s, sep) == [head] + tail[1..];
        assert sep !in head by {
          assert sep !in tail[0];
        }
      }
    }
  }

  /// Joining the components gives back the string.
  lemma {:induction false} JoinComponents(s: string, sep: char)
    ensures Join(Components(s, sep), sep) == s
  {
    if |s| > 0 {
      JoinComponents(s[1..], sep);
      var tail := Components(s[1..], sep);
      if s[0] != sep && |tail| > 1 {
        assert Join(tail, sep) == tail[0] + [sep] + Join(tail[1..], sep);
      }
    }
  }

  /// A character other than the separator joins the first component.
  lemma ComponentsCons(c: char, s: string, sep: char)
    requires c != sep
    ensures Components([c] + s, sep) == [[c] + Components(s, sep)[0]] + Components(s, sep)[1..]
  {
    assert ([c] + s)[1..] == s;
  }

  /// A string free of the separator, followed by more text, contributes to
  /// the first component only.
  lemma {:induction false} ComponentsAfterPlain(x: string, s: string, sep: char)
    requires sep !in x
    ensures Components(x + s, sep) == [x + Components(s, sep)[0]] + Components(s, sep)[1..]
  {
    if |x| > 0 {
      var c := Components(s, sep);
      ComponentsAfterPlain(x[1..], s, sep);
      assert x + s == [x[0]] + (x[1..] + s);
      ComponentsCons(x[0], x[1..] + s, sep);
      assert [x[0]] + (x[1..] + c[0]) == x + c[0];
    } else {
      assert x + s == s;
      var c := Components(s, sep);
      assert x + c[0] == c[0];
      assert [c[0]] + c[1..] == c;
    }
  }

  /// Splitting pieces that are free of the separator after joining them
  /// gives back the pieces.
  lemma {:induction false} ComponentsJoin(parts: seq<string>, sep: char)
    requires |parts| >= 1
    requires forall i :: 0 <= i < |parts| ==> sep !in parts[i]
    ensures Components(Join(parts, sep), sep) == parts
  {
    if |parts| == 1 {
      ComponentsAfterPlain(parts[0], "", sep);
      assert parts[0] + "" == parts[0];
    } else {
      var rest := Join(parts[1..], sep);
      ComponentsJoin(parts[1..], sep);
      assert ([sep] + rest)[1..] == rest;
      assert parts[0] + [sep] + rest == parts[0] + ([sep] + rest);
      ComponentsAfterPlain(parts[0], [sep] + rest, sep);
      assert parts[0] + "" == parts[0];
    }
  }
}
