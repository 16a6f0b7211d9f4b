/** Move legality. The checks shared by every piece (both squares on the
    board, a piece of the side to move on the origin, no piece of that side
    on the destination) come first; then the rule for the origin piece's
    kind, chosen by its upper-cased letter, decides. No rule changes the
    board. */
module Rules {
  import opened Pieces
  import opened Grids

  /** The row step a pawn of that colour moves by: towards row 0 for White,
      towards row 7 for Black. */
  function Forward(isWhite: bool): int {
    if isWhite then -1 else 1
  }

  /** The row a pawn of that colour starts on. */
  function HomeRow(isWhite: bool): int {
    if isWhite then 6 else 1
  }

  /** `validatePawnMove`. `isWhite` is the colour of the pawn; the capture
      test asks whether the destination holds an enemy of the side to move,
      `whiteTurn`. */
  function ValidatePawnMove(g: Grid, whiteTurn: bool, fromR: int, fromC: int, toR: int, toC: int, isWhite: bool): bool
    requires IsGrid(g) && IsValidPos(fromR, fromC) && IsValidPos(toR, toC)
  {
    var direction := if isWhite then -1 else 1;
    var target := g[toR][toC];
    if fromC == toC && IsEmpty(target) && toR == fromR + direction then true
    else if fromC == toC && IsEmpty(target) && isWhite && fromR == 6 && toR == 4 && IsEmpty(g[5][fromC]) then true
    else if fromC == toC && IsEmpty(target) && !isWhite && fromR == 1 && toR == 3 && IsEmpty(g[2][fromC]) then true
    else if Abs(toC - fromC) == 1 && toR == fromR + direction && !IsEmpty(target) && IsEnemyPiece(target, whiteTurn) then true
    else false
  }

  /** `validateRookMove`: same row or same column, and a clear path. */
  function ValidateRookMove(g: Grid, fromR: int, fromC: int, toR: int, toC: int): bool
    requires IsGrid(g) && IsValidPos(fromR, fromC) && IsValidPos(toR, toC)
  {
    if fromR != toR && fromC != toC then false
    else PathClear(g, fromR, fromC, toR, toC)
  }

  /** `validateBishopMove`: equal row and column distances, and a clear
      path. */
  function ValidateBishopMove(g: Grid, fromR: int, fromC: int, toR: int, toC: int): bool
    requires IsGrid(g) && IsValidPos(fromR, fromC) && IsValidPos(toR, toC)
  {
    if Abs(toR - fromR) != Abs(toC - fromC) then false
    else PathClear(g, fromR, fromC, toR, toC)
  }

  /** `validateQueenMove`: legal for a rook or legal for a bishop. */
  function ValidateQueenMove(g: Grid, fromR: int, fromC: int, toR: int, toC: int): bool
    requires IsGrid(g) && IsValidPos(fromR, fromC) && IsValidPos(toR, toC)
  {
    var rookLike := ValidateRookMove(g, fromR, fromC, toR, toC);
    var bishopLike := ValidateBishopMove(g, fromR, fromC, toR, toC);
    rookLike || bishopLike
  }

  /** `validateKnightMove`: distances (2, 1) or (1, 2); the board is not
      consulted. */
  function ValidateKnightMove(fromR: int, fromC: int, toR: int, toC: int): bool {
    var rDiff := Abs(toR - fromR);
    var cDiff := Abs(toC - fromC);
    (rDiff == 2 && cDiff == 1) || (rDiff == 1 && cDiff == 2)
  }

  /** `validateKingMove`: both distances at most one. A move onto the
      king's own square passes this test. */
  function ValidateKingMove(fromR: int, fromC: int, toR: int, toC: int): bool {
    var rDiff := Abs(toR - fromR);
    var cDiff := Abs(toC - fromC);
    rDiff <= 1 && cDiff <= 1
  }

  /** `validateMove`: the shared checks, then the rule for the origin piece's
      kind. A symbol whose upper-cased letter names no kind is refused. If
      the move is accepted, both squares are on the board, the origin holds a
      piece of the side to move and the destination does not. */
  function ValidateMove(g: Grid, whiteTurn: bool, fromR: int, fromC: int, toR: int, toC: int): (ok: bool)
    requires IsGrid(g)
    ensures ok ==>
      && IsValidPos(fromR, fromC) && IsValidPos(toR, toC)
      && IsCurrentPlayerPiece(g[fromR][fromC], whiteTurn)
      && !IsCurrentPlayerPiece(g[toR][toC], whiteTurn)
  {
    if !IsValidPos(fromR, fromC) || !IsValidPos(toR, toC) then false
    else
      var piece := g[fromR][fromC];
      var target := g[toR][toC];
      if IsEmpty(piece) then false
      else if !IsCurrentPlayerPiece(piece, whiteTurn) then false
      else if !IsEmpty(target) && IsCurrentPlayerPiece(target, whiteTurn) then false
      else
        match ToUpper(piece)
        case 'P' => ValidatePawnMove(g, whiteTurn, fromR, fromC, toR, toC, IsWhitePiece(piece))
        case 'R' => ValidateRookMove(g, fromR, fromC, toR, toC)
        case 'B' => ValidateBishopMove(g, fromR, fromC, toR, toC)
        case 'Q' => ValidateQueenMove(g, fromR, fromC, toR, toC)
        case 'N' => ValidateKnightMove(fromR, fromC, toR, toC)
        case 'K' => ValidateKingMove(fromR, fromC, toR, toC)
        case _ => false
  }

  /** The shared checks in the other direction: once they all pass, the
      verdict is the rule for the origin piece's kind. */
  lemma ValidateMoveDispatch(g: Grid, whiteTurn: bool, fromR: int, fromC: int, toR: int, toC: int)
    requires IsGrid(g) && IsValidPos(fromR, fromC) && IsValidPos(toR, toC)
    requires IsCurrentPlayerPiece(g[fromR][fromC], whiteTurn)
    requires !IsCurrentPlayerPiece(g[toR][toC], whiteTurn)
    ensures var kind := ToUpper(g[fromR][fromC]);
      && (kind == 'P' ==> ValidateMove(g, whiteTurn, fromR, fromC, toR, toC) == ValidatePawnMove(g, whiteTurn, fromR, fromC, toR, toC, whiteTurn))
      && (kind == 'R' ==> ValidateMove(g, whiteTurn, fromR, fromC, toR, toC) == ValidateRookMove(g, fromR, fromC, toR, toC))
      && (kind == 'B' ==> ValidateMove(g, whiteTurn, fromR, fromC, toR, toC) == ValidateBishopMove(g, fromR, fromC, toR, toC))
      && (kind == 'Q' ==> ValidateMove(g, whiteTurn, fromR, fromC, toR, toC) == ValidateQueenMove(g, fromR, fromC, toR, toC))
      && (kind == 'N' ==> ValidateMove(g, whiteTurn, fromR, fromC, toR, toC) == ValidateKnightMove(fromR, fromC, toR, toC))
      && (kind == 'K' ==> ValidateMove(g, whiteTurn, fromR, fromC, toR, toC) == ValidateKingMove(fromR, fromC, toR, toC))
      && (kind !in {'P', 'R', 'B', 'Q', 'N', 'K'} ==> !ValidateMove(g, whiteTurn, fromR, fromC, toR, toC))
  {
  }

  /** A move onto its own origin is always refused, the king's included:
      the destination then holds the mover's own piece. */
  lemma NullMoveRefused(g: Grid, whiteTurn: bool, r: int, c: int)
    requires IsGrid(g)
    ensures !ValidateMove(g, whiteTurn, r, c, r, c)
    ensures ValidateKingMove(r, c, r, c)
  {
  }

  /** The pawn rule in full: one step forward onto an empty square; two
      steps forward from the home row when the square passed over and the
      destination are empty; one step diagonally forward onto an enemy of
      the side to move. Nothing else. */
  lemma PawnMoves(g: Grid, whiteTurn: bool, fromR: int, fromC: int, toR: int, toC: int, isWhite: bool)
    requires IsGrid(g) && IsValidPos(fromR, fromC) && IsValidPos(toR, toC)
    ensures ValidatePawnMove(g, whiteTurn, fromR, fromC, toR, toC, isWhite) <==>
      var f := Forward(isWhite);
      || (toC == fromC && toR == fromR + f && IsEmpty(g[toR][toC]))
      || (toC == fromC && fromR == HomeRow(isWhite) && toR == fromR + 2 * f
          && IsEmpty(g[fromR + f][fromC]) && IsEmpty(g[toR][toC]))
      || (Abs(toC - fromC) == 1 && toR == fromR + f && IsEnemyPiece(g[toR][toC], whiteTurn))
  {
  }

  /** A pawn always advances, by one row, or by two rows from its home row
      only. */
  lemma PawnAdvances(g: Grid, whiteTurn: bool, fromR: int, fromC: int, toR: int, toC: int, isWhite: bool)
    requires IsGrid(g) && IsValidPos(fromR, fromC) && IsValidPos(toR, toC)
    requires ValidatePawnMove(g, whiteTurn, fromR, fromC, toR, toC, isWhite)
    ensures toR == fromR + Forward(isWhite) || (fromR == HomeRow(isWhite) && toR == fromR + 2 * Forward(isWhite) && toC == fromC)
  {
  }

  /** The knight squares: the eight (row, column) offsets of a knight's
      jump. */
  function KnightOffsets(): set<(int, int)> {
    {(2, 1), (2, -1), (-2, 1), (-2, -1), (1, 2), (1, -2), (-1, 2), (-1, -2)}
  }

  /** The knight rule accepts exactly the eight knight offsets. */
  lemma KnightMoves(fromR: int, fromC: int, toR: int, toC: int)
    ensures ValidateKnightMove(fromR, fromC, toR, toC) <==> (toR - fromR, toC - fromC) in KnightOffsets()
  {
  }

  /** The king rule accepts exactly the destinations in the 3 by 3 block
      centred on the origin, the origin itself included. */
  lemma KingMoves(fromR: int, fromC: int, toR: int, toC: int)
    ensures ValidateKingMove(fromR, fromC, toR, toC) <==>
      fromR - 1 <= toR <= fromR + 1 && fromC - 1 <= toC <= fromC + 1
  {
  }

  /** Knights and kings ignore the rest of the board: two boards that agree
      on the origin and the destination give the same verdict. */
  lemma LeapersIgnoreOtherSquares(g: Grid, h: Grid, whiteTurn: bool, fromR: int, fromC: int, toR: int, toC: int)
    requires IsGrid(g) && IsGrid(h) && IsValidPos(fromR, fromC) && IsValidPos(toR, toC)
    requires g[fromR][fromC] == h[fromR][fromC] && g[toR][toC] == h[toR][toC]
    requires ToUpper(g[fromR][fromC]) == 'N' || ToUpper(g[fromR][fromC]) == 'K'
    ensures ValidateMove(g, whiteTurn, fromR, fromC, toR, toC) == ValidateMove(h, whiteTurn, fromR, fromC, toR, toC)
  {
  }

  /** Rooks, bishops and queens are stopped by any piece strictly between
      origin and destination: on a board where the move is legal, putting a
      piece on such a square makes it illegal, and emptying that square
      again gives back the board on which it was legal. */
  lemma SlidersAreBlocked(g: Grid, fromR: int, fromC: int, toR: int, toC: int, r: int, c: int, x: char)
    requires IsGrid(g) && IsValidPos(fromR, fromC) && IsValidPos(toR, toC)
    requires IsValidPos(r, c) && StrictlyBetween(fromR, fromC, toR, toC, r, c) && !IsEmpty(x)
    ensures var blocked := Set(g, r, c, x);
      && !ValidateRookMove(blocked, fromR, fromC, toR, toC)
      && !ValidateBishopMove(blocked, fromR, fromC, toR, toC)
      && !ValidateQueenMove(blocked, fromR, fromC, toR, toC)
    ensures ValidateQueenMove(g, fromR, fromC, toR, toC) ==> Set(Set(g, r, c, x), r, c, EmptySymbol) == g
  {
    if Aligned(fromR, fromC, toR, toC) {
      BlockerClosesPath(g, fromR, fromC, toR, toC, r, c, x);
    }
  }

  /** A square off the segment has no say in a rook's, bishop's or queen's
      verdict. */
  lemma SlidersIgnoreOffPathSquares(g: Grid, fromR: int, fromC: int, toR: int, toC: int, r: int, c: int, x: char)
    requires IsGrid(g) && IsValidPos(fromR, fromC) && IsValidPos(toR, toC)
    requires IsValidPos(r, c) && !StrictlyBetween(fromR, fromC, toR, toC, r, c)
    ensures ValidateRookMove(Set(g, r, c, x), fromR, fromC, toR, toC) == ValidateRookMove(g, fromR, fromC, toR, toC)
    ensures ValidateBishopMove(Set(g, r, c, x), fromR, fromC, toR, toC) == ValidateBishopMove(g, fromR, fromC, toR, toC)
    ensures ValidateQueenMove(Set(g, r, c, x), fromR, fromC, toR, toC) == ValidateQueenMove(g, fromR, fromC, toR, toC)
  {
    if Aligned(fromR, fromC, toR, toC) {
      OffPathSquareIrrelevant(g, fromR, fromC, toR, toC, r, c, x);
    }
  }

  /** The three examples of the starting position: the White pawn on e2
      may advance two squares to e4; the White king on e1 may not step onto
      its own pawn on e2; the White rook on a1 may not reach a8 through its
      own pawn on a2. */
  lemma StartingPositionExamples()
    ensures ValidateMove(InitialGrid(), true, 6, 4, 4, 4)
    ensures !ValidateMove(InitialGrid(), true, 7, 4, 6, 4)
    ensures !ValidateMove(InitialGrid(), true, 7, 0, 0, 0)
  {
    var g := InitialGrid();
    assert Along(7, 0, 1) == 6 && Along(0, 0, 1) == 0 && !IsEmpty(g[6][0]);
    assert !PathClear(g, 7, 0, 0, 0);
  }
}
