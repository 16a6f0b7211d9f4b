/** The board object: an 8 by 8 array of symbols that the game updates in
    place. Each method is specified by what it does to `Grid()`, the value
    the array holds. */
module Board {
  import opened Pieces
  import opened Grids
  import opened BoardText

  class ChessBoard {
    const cells: array2<char>

    ghost predicate Valid() {
      cells.Length0 == 8 && cells.Length1 == 8
    }

    /** The board's current contents as a value. */
    function Grid(): (g: Grid)
      requires Valid()
      reads cells
      ensures IsGrid(g)
      ensures forall r, c :: IsValidPos(r, c) ==> g[r][c] == cells[r, c]
    {
      seq(8, r requires 0 <= r < cells.Length0 reads cells =>
        seq(8, c requires 0 <= c < cells.Length1 reads cells => cells[r, c]))
    }

    /** A new board holds the starting position. */
    constructor ()
      ensures Valid() && fresh(cells)
      ensures Grid() == InitialGrid()
    {
      cells := new char[8, 8]((r, c) => EmptySymbol);
      new;
      SetupBoard();
    }

    /** Clears every square, then places the pawns and the back ranks. */
    method SetupBoard()
      requires Valid()
      modifies cells
      ensures Grid() == InitialGrid()
    {
      for r := 0 to 8
        invariant forall i, j :: 0 <= i < r && 0 <= j < 8 ==> cells[i, j] == EmptySymbol
      {
        for c := 0 to 8
          invariant forall i, j :: 0 <= i < r && 0 <= j < 8 ==> cells[i, j] == EmptySymbol
          invariant forall j :: 0 <= j < c ==> cells[r, j] == EmptySymbol
        {
          cells[r, c] := EmptySymbol;
        }
      }

      for c := 0 to 8
        invariant forall i, j :: IsValidPos(i, j) && i != 1 && i != 6 ==> cells[i, j] == EmptySymbol
        invariant forall j :: 0 <= j < c ==> cells[1, j] == 'p' && cells[6, j] == 'P'
      {
        cells[1, c] := 'p';
        cells[6, c] := 'P';
      }

      PlaceBackRanks();
      InitialLayout(Grid());
    }

    /** The back-rank part of `SetupBoard`: rooks, knights, bishops, queens
        and kings on rows 0 and 7; rows 1 to 6 are left as they are. */
    method PlaceBackRanks()
      requires Valid()
      modifies cells
      ensures cells[0, 0] == 'r' && cells[0, 1] == 'n' && cells[0, 2] == 'b' && cells[0, 3] == 'q'
      ensures cells[0, 4] == 'k' && cells[0, 5] == 'b' && cells[0, 6] == 'n' && cells[0, 7] == 'r'
      ensures cells[7, 0] == 'R' && cells[7, 1] == 'N' && cells[7, 2] == 'B' && cells[7, 3] == 'Q'
      ensures cells[7, 4] == 'K' && cells[7, 5] == 'B' && cells[7, 6] == 'N' && cells[7, 7] == 'R'
      ensures forall r, c :: 0 < r < 7 && 0 <= c < 8 ==> cells[r, c] == old(cells[r, c])
    {
      var board := cells;
      board[0, 0] := 'r';
      board[0, 7] := 'r';
      board[7, 0] := 'R';
      board[7, 7] := 'R';

      board[0, 1] := 'n';
      board[0, 6] := 'n';
      board[7, 1] := 'N';
      board[7, 6] := 'N';

      board[0, 2] := 'b';
      board[0, 5] := 'b';
      board[7, 2] := 'B';
      board[7, 5] := 'B';

      board[0, 3] := 'q';
      board[7, 3] := 'Q';

      board[0, 4] := 'k';
      board[7, 4] := 'K';
    }

    /** The symbol on an in-bounds square. */
    function GetPiece(r: int, c: int): (p: char)
      requires Valid() && IsValidPos(r, c)
      reads cells
      ensures p == Grid()[r][c]
    {
      cells[r, c]
    }

    /** Overwrites one square; no legality is checked here. */
    method SetPiece(r: int, c: int, p: char)
      requires Valid() && IsValidPos(r, c)
      modifies cells
      ensures Grid() == Set(old(Grid()), r, c, p)
    {
      cells[r, c] := p;
      SameSquaresSameGrid(Grid(), Set(old(Grid()), r, c, p));
    }

    /** Walks from the origin towards the destination one unit step at a
        time and reports whether every square before the destination is
        empty. The callers only ask about aligned squares, for which the walk
        reaches the destination. */
    method IsPathClear(fromR: int, fromC: int, toR: int, toC: int) returns (clear: bool)
      requires Valid() && IsValidPos(fromR, fromC) && IsValidPos(toR, toC)
      requires Aligned(fromR, fromC, toR, toC)
      ensures clear == PathClear(Grid(), fromR, fromC, toR, toC)
    {
      var rStep := Sign(toR - fromR);
      var cStep := Sign(toC - fromC);

      var r := fromR + rStep;
      var c := fromC + cStep;

      ghost var d := Dist(fromR, fromC, toR, toC);
      ghost var k := if d == 0 then 0 else 1;

      while r != toR || c != toC
        invariant 0 <= k <= d && (d > 0 ==> 1 <= k)
        invariant r == Along(fromR, toR, k) && c == Along(fromC, toC, k)
        invariant forall j :: 0 < j < k ==> IsEmpty(Grid()[Along(fromR, toR, j)][Along(fromC, toC, j)])
        decreases d - k
      {
        WalkStaysBetween(fromR, fromC, toR, toC, k);
        if !IsEmpty(cells[r, c]) {
          return false;
        }
        r := r + rStep;
        c := c + cStep;
        k := k + 1;
      }

      return true;
    }

    /** Relocates the origin's symbol to the destination and empties the
        origin; it performs no legality check and always reports success. */
    method MovePiece(fromR: int, fromC: int, toR: int, toC: int) returns (ok: bool)
      requires Valid() && IsValidPos(fromR, fromC) && IsValidPos(toR, toC)
      modifies cells
      ensures ok
      ensures Grid() == Moved(old(Grid()), fromR, fromC, toR, toC)
    {
      var fromPiece := cells[fromR, fromC];
      cells[toR, toC] := fromPiece;
      cells[fromR, fromC] := EmptySymbol;
      SameSquaresSameGrid(Grid(), Moved(old(Grid()), fromR, fromC, toR, toC));
      return true;
    }

    /** The text a save writes: row by row, each square's symbol, then a
        line break after each row. */
    method SaveText() returns (text: string)
      requires Valid()
      ensures text == Encode(Grid())
    {
      ghost var g := Grid();
      text := "";
      for r := 0 to 8
        invariant text == EncodeRows(g[..r])
      {
        for c := 0 to 8
          invariant text == EncodeRows(g[..r]) + g[r][..c]
        {
          assert g[r][..c + 1] == g[r][..c] + [g[r][c]];
          text := text + [cells[r, c]];
        }
        text := text + [Newline];
        EncodeRowsAppend(g[..r], g[r]);
        assert g[..r + 1] == g[..r] + [g[r]];
        assert g[r][..8] == g[r];
      }
      assert g[..8] == g;
    }

    /** A load: 8 calls of `getline` into one string, each followed by
        copying the string's first 8 characters into its row. */
    method LoadText(text: string)
      requires Valid() && IsLoadable(text)
      modifies cells
      ensures Grid() == Decode(text)
    {
      var reader := Reader(text, true, "");
      for r := 0 to 8
        invariant reader == Reads(text, r)
        invariant forall i, j :: 0 <= i < r && 0 <= j < 8 ==> cells[i, j] == CharAt(LineAt(text, i), j)
      {
        reader := GetLine(reader);
        var line := reader.line;
        assert line == LineAt(text, r);
        for c := 0 to 8
          invariant forall i, j :: 0 <= i < r && 0 <= j < 8 ==> cells[i, j] == CharAt(LineAt(text, i), j)
          invariant forall j :: 0 <= j < c ==> cells[r, j] == CharAt(line, j)
        {
          cells[r, c] := CharAt(line, c);
        }
      }
      SameSquaresSameGrid(Grid(), Decode(text));
    }
  }
}
