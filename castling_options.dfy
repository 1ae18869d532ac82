/// The four castling rights as a bit set in one byte
/// (kjchess/CastlingOptions.swift).
module Castling {
  import opened Players

  /// An `OptionSet` over an unsigned 8-bit raw value.
  datatype CastlingOptions = CastlingOptions(rawValue: bv8)

  const WhiteCanCastleKingside: CastlingOptions := CastlingOptions(1 << 0)
  const WhiteCanCastleQueenside: CastlingOptions := CastlingOptions(1 << 1)
  const BlackCanCastleKingside: CastlingOptions := CastlingOptions(1 << 2)
  const BlackCanCastleQueenside: CastlingOptions := CastlingOptions(1 << 3)

  /// The four flags in declaration order.
  const Flags: seq<CastlingOptions> :=
    [WhiteCanCastleKingside, WhiteCanCastleQueenside, BlackCanCastleKingside, BlackCanCastleQueenside]

  const All: CastlingOptions :=
    CastlingOptions(WhiteCanCastleKingside.rawValue | WhiteCanCastleQueenside.rawValue
                    | BlackCanCastleKingside.rawValue | BlackCanCastleQueenside.rawValue)

  const NoOptions: CastlingOptions := CastlingOptions(0)

  /// `OptionSet.contains` for a single flag.
  predicate Contains(s: CastlingOptions, flag: CastlingOptions)
  {
    s.rawValue & flag.rawValue == flag.rawValue
  }

  /// `OptionSet.insert`.
  function Insert(s: CastlingOptions, flag: CastlingOptions): (r: CastlingOptions)
    ensures Contains(r, flag)
  {
    CastlingOptions(s.rawValue | flag.rawValue)
  }

  /// `OptionSet.remove` (set subtraction).
  function Remove(s: CastlingOptions, flag: CastlingOptions): (r: CastlingOptions)
    ensures flag != NoOptions ==> !Contains(r, flag)
  {
    CastlingOptions(s.rawValue & !flag.rawValue)
  }

  /// Removing a flag never adds one.
  lemma RemoveShrinks(s: CastlingOptions, flag: CastlingOptions, f: CastlingOptions)
    ensures Contains(Remove(s, flag), f) ==> Contains(s, f)
  {
  }

  /// The kingside flag of a player.
  function KingsideFlag(p: Player): (f: CastlingOptions)
    ensures f in Flags
  {
    if p == White then WhiteCanCastleKingside else BlackCanCastleKingside
  }

  /// The queenside flag of a player.
  function QueensideFlag(p: Player): (f: CastlingOptions)
    ensures f in Flags
  {
    if p == White then WhiteCanCastleQueenside else BlackCanCastleQueenside
  }

  /// The flags are the distinct single bits 1, 2, 4 and 8.
  lemma FlagValues()
    ensures WhiteCanCastleKingside.rawValue == 1 && WhiteCanCastleQueenside.rawValue == 2
    ensures BlackCanCastleKingside.rawValue == 4 && BlackCanCastleQueenside.rawValue == 8
    ensures forall i, j :: 0 <= i < j < 4 ==> Flags[i] != Flags[j] && !Contains(Flags[i], Flags[j])
  {
  }

  /// `all` has raw value 15 and contains every flag; `none` is 0 and
  /// contains none.
  lemma AllAndNone()
    ensures All.rawValue == 15 && NoOptions.rawValue == 0
    ensures forall f :: f in Flags ==> Contains(All, f) && !Contains(NoOptions, f)
  {
  }

  /// Inserting or removing one flag does not change the others.
  lemma InsertRemoveFrame(s: CastlingOptions, i: int, j: int)
    requires 0 <= i < 4 && 0 <= j < 4 && i != j
    ensures Contains(Insert(s, Flags[i]), Flags[j]) <==> Contains(s, Flags[j])
    ensures Contains(Remove(s, Flags[i]), Flags[j]) <==> Contains(s, Flags[j])
    ensures Contains(Insert(s, Flags[i]), Flags[i]) && !Contains(Remove(s, Flags[i]), Flags[i])
  {
  }
}
