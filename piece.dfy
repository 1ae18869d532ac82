/// Piece kinds and pieces (kjchess/Piece.swift).
module Pieces {
  import opened Wrappers
  import opened Players

  datatype PieceKind = Pawn | Knight | Bishop | Rook | Queen | King

  /// A piece: who owns it and what it is. Swift's `==` on `Piece`
  /// compares both fields, which is this datatype's structural equality.
  datatype Piece = Piece(player: Player, kind: PieceKind)

  /// Kinds to which a pawn can be promoted, in generation order.
  const PromotionKinds: seq<PieceKind> := [Knight, Bishop, Rook, Queen]

  lemma PromotionKindsExact(k: PieceKind)
    ensures k in PromotionKinds <==> k != Pawn && k != King
    ensures |PromotionKinds| == 4
  {
  }

  /// Upper-case letter for a kind.
  function KindSymbol(k: PieceKind): char
  {
    match k
    case Pawn => 'P'
    case Knight => 'N'
    case Bishop => 'B'
    case Rook => 'R'
    case Queen => 'Q'
    case King => 'K'
  }

  /// Lower-case letter for a kind.
  function KindLowercaseSymbol(k: PieceKind): char
  {
    match k
    case Pawn => 'p'
    case Knight => 'n'
    case Bishop => 'b'
    case Rook => 'r'
    case Queen => 'q'
    case King => 'k'
  }

  /// The kind named by a letter (either case) or a chess figurine of
  /// either colour; `None` for every other character.
  function FromCharacter(c: char): Option<PieceKind>
  {
    if c in {'P', 'p', '\U{2659}', '\U{265F}'} then Some(Pawn)
    else if c in {'N', 'n', '\U{2658}', '\U{265E}'} then Some(Knight)
    else if c in {'B', 'b', '\U{2657}', '\U{265D}'} then Some(Bishop)
    else if c in {'R', 'r', '\U{2656}', '\U{265C}'} then Some(Rook)
    else if c in {'Q', 'q', '\U{2655}', '\U{265B}'} then Some(Queen)
    else if c in {'K', 'k', '\U{2654}', '\U{265A}'} then Some(King)
    else None
  }

  /// The 24 characters `FromCharacter` accepts.
  const PieceCharacters: set<char> :=
    {'P', 'p', '\U{2659}', '\U{265F}', 'N', 'n', '\U{2658}', '\U{265E}',
     'B', 'b', '\U{2657}', '\U{265D}', 'R', 'r', '\U{2656}', '\U{265C}',
     'Q', 'q', '\U{2655}', '\U{265B}', 'K', 'k', '\U{2654}', '\U{265A}'}

  /// Both letters of a kind parse back to that kind.
  lemma FromCharacterOfSymbols(k: PieceKind)
    ensures FromCharacter(KindSymbol(k)) == Some(k)
    ensures FromCharacter(KindLowercaseSymbol(k)) == Some(k)
  {
  }

  /// `FromCharacter` succeeds exactly on the 24 listed characters.
  lemma FromCharacterDomain(c: char)
    ensures FromCharacter(c).Some? <==> c in PieceCharacters
  {
  }

  /// Neither symbol table maps two kinds to one letter.
  lemma SymbolsInjective(k1: PieceKind, k2: PieceKind)
    ensures KindSymbol(k1) == KindSymbol(k2) ==> k1 == k2
    ensures KindLowercaseSymbol(k1) == KindLowercaseSymbol(k2) ==> k1 == k2
  {
    if KindSymbol(k1) == KindSymbol(k2) {
      FromCharacterOfSymbols(k1);
      FromCharacterOfSymbols(k2);
    }
    if KindLowercaseSymbol(k1) == KindLowercaseSymbol(k2) {
      FromCharacterOfSymbols(k1);
      FromCharacterOfSymbols(k2);
    }
  }

  /// "WP", "BK", ...: the player symbol followed by the kind symbol.
  function PieceSymbol(p: Piece): (s: string)
    ensures |s| == 2 && s[0..1] == Symbol(p.player) && s[1] == KindSymbol(p.kind)
  {
    Symbol(p.player) + [KindSymbol(p.kind)]
  }

  /// Swift's `==` on `Piece?`: two absent pieces are equal, an absent and a
  /// present one are not, two present ones compare player and kind.
  function OptionalPieceEquals(l: Option<Piece>, r: Option<Piece>): (eq: bool)
    ensures eq <==> l == r
  {
    match (l, r)
    case (Some(a), Some(b)) => a.player == b.player && a.kind == b.kind
    case (None, None) => true
    case _ => false
  }
}
