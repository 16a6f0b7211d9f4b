/** Piece symbols. A square of the board holds one character: '.' when it is
    empty, otherwise a letter that names the piece, upper case for White and
    lower case for Black. The colour of a piece is read off the case of its
    letter and nowhere else. */
module Pieces {

  /** The symbol of an empty square. */
  const EmptySymbol: char := '.'

  predicate IsEmpty(p: char) {
    p == EmptySymbol
  }

  /** `isupper` in the "C" locale. */
  predicate IsUpper(ch: char) {
    'A' <= ch <= 'Z'
  }

  /** `islower` in the "C" locale. */
  predicate IsLower(ch: char) {
    'a' <= ch <= 'z'
  }

  /** `toupper` in the "C" locale: lower-case letters become upper case,
      every other character is returned as it is. */
  function ToUpper(ch: char): char {
    if IsLower(ch) then (ch as int - 'a' as int + 'A' as int) as char else ch
  }

  predicate IsWhitePiece(p: char) {
    !IsEmpty(p) && IsUpper(p)
  }

  predicate IsBlackPiece(p: char) {
    !IsEmpty(p) && IsLower(p)
  }

  /** A piece of the side to move; `whiteTurn` is the game's turn flag. */
  predicate IsCurrentPlayerPiece(p: char, whiteTurn: bool) {
    if whiteTurn then IsWhitePiece(p) else IsBlackPiece(p)
  }

  /** A piece of the side that is not to move. */
  predicate IsEnemyPiece(p: char, whiteTurn: bool) {
    if IsEmpty(p) then false
    else if whiteTurn then IsBlackPiece(p)
    else IsWhitePiece(p)
  }

  /** A symbol belongs to at most one side, and the enemy of the side to
      move is exactly the side that moves next. A symbol that is neither a
      letter nor '.' belongs to no side at all. */
  lemma SidesAreDisjoint(p: char, whiteTurn: bool)
    ensures !(IsWhitePiece(p) && IsBlackPiece(p))
    ensures IsEnemyPiece(p, whiteTurn) <==> IsCurrentPlayerPiece(p, !whiteTurn)
    ensures !(IsCurrentPlayerPiece(p, whiteTurn) && IsEnemyPiece(p, whiteTurn))
    ensures !IsUpper(p) && !IsLower(p) ==> !IsCurrentPlayerPiece(p, true) && !IsCurrentPlayerPiece(p, false)
  {
  }

  /** Upper-casing maps every piece letter of either side to White's letter
      for the same kind and leaves White's letters alone. */
  lemma ToUpperOfPieceLetters()
    ensures ToUpper('p') == 'P' && ToUpper('r') == 'R' && ToUpper('n') == 'N'
    ensures ToUpper('b') == 'B' && ToUpper('q') == 'Q' && ToUpper('k') == 'K'
    ensures forall ch :: IsUpper(ch) ==> ToUpper(ch) == ch
  {
  }
}
