/// Squares of the board (kjchess/Location.swift).
///
/// `file` is the x-coordinate (a..h) and `rank` the y-coordinate (1..8),
/// both zero-based; rank 0 is White's side.
module Locations {
  import opened Wrappers

  /// A file or rank index.
  type Coord = i: int | 0 <= i <= 7

  /// Swift's `==` on `Location` compares file and rank, which is this
  /// datatype's structural equality.
  datatype Location = Location(file: Coord, rank: Coord)

  /// `Board.isValid(file:rank:)`: both indexes lie in 0...7.
  predicate IsValid(file: int, rank: int)
  {
    0 <= file <= 7 && 0 <= rank <= 7
  }

  /// `Location(file, rank)`: the Swift initialiser asserts validity.
  function MakeLocation(file: int, rank: int): (l: Location)
    requires IsValid(file, rank)
    ensures l.file == file && l.rank == rank
  {
    Location(file, rank)
  }

  /// `Location.ifValid(file:rank:)`.
  function IfValid(file: int, rank: int): (r: Option<Location>)
    ensures r.Some? <==> IsValid(file, rank)
    ensures r.Some? ==> r.value.file == file && r.value.rank == rank
  {
    if IsValid(file, rank) then Some(Location(file, rank)) else None
  }

  /// File letter to index; upper case is accepted too.
  function FileIndex(c: char): (r: Option<Coord>)
    ensures r.Some? <==> ('a' <= c <= 'h' || 'A' <= c <= 'H')
    ensures r.Some? && 'a' <= c <= 'h' ==> r.value == c as int - 'a' as int
    ensures r.Some? && 'A' <= c <= 'H' ==> r.value == c as int - 'A' as int
  {
    if 'a' <= c <= 'h' then Some(c as int - 'a' as int)
    else if 'A' <= c <= 'H' then Some(c as int - 'A' as int)
    else None
  }

  /// Rank digit to index.
  function RankIndex(c: char): (r: Option<Coord>)
    ensures r.Some? <==> '1' <= c <= '8'
    ensures r.Some? ==> r.value == c as int - '1' as int
  {
    if '1' <= c <= '8' then Some(c as int - '1' as int) else None
  }

  /// `Location(fileCharacter, rankCharacter)`.
  function FromCharacters(fc: char, rc: char): (r: Option<Location>)
    ensures r.Some? <==> FileIndex(fc).Some? && RankIndex(rc).Some?
    ensures r.Some? ==> r.value == Location(FileIndex(fc).value, RankIndex(rc).value)
  {
    match (FileIndex(fc), RankIndex(rc))
    case (Some(f), Some(r)) => Some(Location(f, r))
    case _ => None
  }

  /// `Location(algebraicNotationString)`: exactly two characters, a file
  /// then a rank.
  function Parse(s: string): (r: Option<Location>)
    ensures r.Some? <==> |s| == 2 && FileIndex(s[0]).Some? && RankIndex(s[1]).Some?
  {
    if |s| != 2 then None else FromCharacters(s[0], s[1])
  }

  /// 'a'..'h'.
  function FileSymbol(l: Location): char
  {
    ('a' as int + l.file) as char
  }

  /// '1'..'8'.
  function RankSymbol(l: Location): char
  {
    ('1' as int + l.rank) as char
  }

  /// Algebraic notation, "e4".
  function Symbol(l: Location): (s: string)
    ensures |s| == 2 && 'a' <= s[0] <= 'h' && '1' <= s[1] <= '8'
  {
    [FileSymbol(l), RankSymbol(l)]
  }

  /// Parsing the algebraic symbol of a square gives the square back.
  lemma ParseSymbol(l: Location)
    ensures Parse(Symbol(l)) == Some(l)
  {
  }

  /// Conversely, a successfully parsed lower-case symbol prints back as itself.
  lemma SymbolParse(s: string)
    requires Parse(s).Some? && 'a' <= s[0] <= 'h'
    ensures Symbol(Parse(s).value) == s
  {
  }

  /// The test cases: "", "a", "e5e", "5e", "a9" and "i1" are rejected.
  lemma ParseRejections()
    ensures Parse("") == None && Parse("a") == None && Parse("e5e") == None
    ensures Parse("5e") == None && Parse("a9") == None && Parse("i1") == None
    ensures Parse("e4") == Some(Location(4, 3)) && Parse("H8") == Some(Location(7, 7))
  {
  }

  function Abs(x: int): nat { if x < 0 then -x else x }

  /// Same diagonal: the file and rank distances are equal.
  predicate IsSameDiagonal(a: Location, b: Location)
  {
    Abs(a.file - b.file) == Abs(a.rank - b.rank)
  }

  predicate IsSameFile(a: Location, b: Location)
  {
    a.file == b.file
  }

  predicate IsSameRank(a: Location, b: Location)
  {
    a.rank == b.rank
  }

  lemma LineRelationsReflexiveSymmetric(a: Location, b: Location)
    ensures IsSameDiagonal(a, a) && IsSameFile(a, a) && IsSameRank(a, a)
    ensures IsSameDiagonal(a, b) == IsSameDiagonal(b, a)
    ensures IsSameFile(a, b) == IsSameFile(b, a) && IsSameRank(a, b) == IsSameRank(b, a)
  {
  }

  /// `hashValue` is `(file << 3) | rank`; since `rank < 8` the bits do not
  /// overlap and the value is `file * 8 + rank`.
  function HashValue(l: Location): (h: int)
    ensures 0 <= h < 64
  {
    l.file * 8 + l.rank
  }

  /// Distinct squares hash differently.
  lemma HashValueInjective(a: Location, b: Location)
    ensures HashValue(a) == HashValue(b) ==> a == b
  {
  }
}
