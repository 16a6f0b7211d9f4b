/** Move requests as typed by a player: origin square, one space,
    destination square, each square a file letter `a`-`h` followed by a rank
    digit `1`-`8`, as in "e2 e4". */
module MoveText {
  import opened Optional
  import opened Grids

  /** Origin and destination as board indices: row 0 is rank 8, column 0 is
      file a. */
  datatype Move = Move(fromR: int, fromC: int, toR: int, toC: int)

  predicate IsFile(ch: char) {
    'a' <= ch <= 'h'
  }

  predicate IsRank(ch: char) {
    '1' <= ch <= '8'
  }

  /** Column of a file letter: `file - 'a'`. */
  function FileToCol(ch: char): int {
    ch as int - 'a' as int
  }

  /** Row of a rank digit: `8 - (rank - '0')`. */
  function RankToRow(ch: char): int {
    8 - (ch as int - '0' as int)
  }

  /** `parseMove`: exactly five characters with a space in the middle, each
      file in `a`-`h` and each rank in `1`-`8`; anything else is refused. On
      success every index is on the board and is computed from its letter or
      digit. */
  function ParseMove(input: string): (m: Option<Move>)
    ensures m.Some? ==>
      && |input| == 5 && input[2] == ' '
      && IsValidPos(m.value.fromR, m.value.fromC) && IsValidPos(m.value.toR, m.value.toC)
      && m.value.fromC == input[0] as int - 'a' as int
      && m.value.fromR == 8 - (input[1] as int - '0' as int)
      && m.value.toC == input[3] as int - 'a' as int
      && m.value.toR == 8 - (input[4] as int - '0' as int)
  {
    if |input| != 5 || input[2] != ' ' then None
    else
      var fromFile := input[0];
      var fromRank := input[1];
      var toFile := input[3];
      var toRank := input[4];
      if !IsFile(fromFile) then None
      else if !IsFile(toFile) then None
      else if !IsRank(fromRank) then None
      else if !IsRank(toRank) then None
      else Some(Move(RankToRow(fromRank), FileToCol(fromFile), RankToRow(toRank), FileToCol(toFile)))
  }

  /** The text naming an on-board square. */
  function SquareName(r: int, c: int): (s: string)
    requires IsValidPos(r, c)
    ensures |s| == 2
  {
    [('a' as int + c) as char, ('0' as int + 8 - r) as char]
  }

  /** The text of a move between on-board squares. */
  function FormatMove(m: Move): (s: string)
    requires IsValidPos(m.fromR, m.fromC) && IsValidPos(m.toR, m.toC)
    ensures |s| == 5
  {
    SquareName(m.fromR, m.fromC) + " " + SquareName(m.toR, m.toC)
  }

  /** The parser accepts exactly the texts of moves between on-board
      squares, and for each such text it returns that move. */
  lemma ParseMoveIff(input: string, m: Move)
    ensures ParseMove(input) == Some(m) <==>
      IsValidPos(m.fromR, m.fromC) && IsValidPos(m.toR, m.toC) && input == FormatMove(m)
  {
    if ParseMove(input) == Some(m) {
      var s := FormatMove(m);
      assert s[0] == input[0] && s[1] == input[1] && s[2] == input[2];
      assert s[3] == input[3] && s[4] == input[4];
      assert input == s;
    }
  }

  /** So every text the parser accepts names a move, and every move between
      on-board squares has a text the parser accepts. */
  lemma ParseFormatRoundTrip(m: Move)
    requires IsValidPos(m.fromR, m.fromC) && IsValidPos(m.toR, m.toC)
    ensures ParseMove(FormatMove(m)) == Some(m)
  {
    ParseMoveIff(FormatMove(m), m);
  }

  /** The move of the text "e2 e4": from row 6, column 4 to row 4, column 4. */
  lemma ParseExample()
    ensures ParseMove("e2 e4") == Some(Move(6, 4, 4, 4))
    ensures ParseMove("e2e4") == None && ParseMove("i2 e4") == None && ParseMove("e9 e4") == None
  {
  }
}
