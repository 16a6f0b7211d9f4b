/** The save format: the 8 rows of the board, each written as its 8
    symbols followed by a line break, and read back with 8 calls of
    `std::getline` into one string, of which the first 8 characters are
    copied. */
module BoardText {
  import opened Pieces
  import opened Grids

  const Newline: char := '\n'

  /** The rows, each followed by a line break. */
  function EncodeRows(rows: seq<string>): string {
    if rows == [] then "" else rows[0] + [Newline] + EncodeRows(rows[1..])
  }

  /** The text written by a save. */
  function Encode(g: Grid): string
    requires IsGrid(g)
  {
    EncodeRows(g)
  }

  /** The character `std::string::operator[]` gives at position `size()`. */
  const Nul: char := '\0'

  /** The characters up to the first line break, the text after that line
      break, and whether there was one. Without a line break the whole text
      is the line and nothing is left. */
  function SplitLine(text: string): (r: (string, string, bool))
    ensures Newline !in r.0
    ensures |r.0| + |r.1| <= |text|
    ensures !r.2 ==> r.0 == text && r.1 == []
  {
    if text == [] then ("", "", false)
    else if text[0] == Newline then ("", text[1..], true)
    else
      var (line, rest, ended) := SplitLine(text[1..]);
      ([text[0]] + line, rest, ended)
  }

  /** An input stream being read line by line: the characters not yet
      read, whether the stream is still good (no end of file reached), and
      the string the lines are read into. */
  datatype Reader = Reader(rest: string, good: bool, line: string)

  /** One `std::getline(file, line)`. On a stream that is no longer good the
      call fails before touching `line`, which keeps the last line read. On
      a good stream `line` is emptied and refilled with the characters up to
      the next line break, which is consumed and dropped; reaching the end of
      the text instead leaves the stream no longer good. */
  function GetLine(rd: Reader): (next: Reader)
    ensures !rd.good ==> next == rd
    ensures Newline !in rd.line ==> Newline !in next.line
  {
    if !rd.good then rd
    else
      var (line, rest, ended) := SplitLine(rd.rest);
      Reader(rest, ended, line)
  }

  /** The stream of a text after `k` calls of `getline`, the string having
      started out empty. The string never holds a line break. */
  function Reads(text: string, k: nat): (rd: Reader)
    ensures Newline !in rd.line
  {
    if k == 0 then Reader(text, true, "") else GetLine(Reads(text, k - 1))
  }

  /** The string after the `k`-th call of `getline` (counting from 0). */
  function LineAt(text: string, k: nat): (line: string)
    ensures Newline !in line
  {
    Reads(text, k + 1).line
  }

  /** `line[c]` for `c <= line.size()`: a character of the line, or the
      terminating '\0' at position `size()`. */
  function CharAt(line: string, c: nat): (ch: char)
    requires c <= |line|
    ensures c < |line| ==> ch == line[c]
    ensures c == |line| ==> ch == Nul
  {
    if c < |line| then line[c] else Nul
  }

  /** A text a load reads without indexing past the end of a string: each
      of the 8 strings read is at least 7 characters long, so `line[c]` for
      `c < 8` is at most `line[size()]`. */
  predicate IsLoadable(text: string) {
    forall r :: 0 <= r < 8 ==> |LineAt(text, r)| >= 7
  }

  /** The board a load builds: the first 8 characters of each string read,
      a 7-character string giving '\0' in the last column. Characters past
      the eighth, and lines past the eighth, are ignored. */
  function Decode(text: string): (g: Grid)
    requires IsLoadable(text)
    ensures IsGrid(g)
    ensures forall r, c :: IsValidPos(r, c) ==> g[r][c] == CharAt(LineAt(text, r), c)
  {
    seq(8, r requires 0 <= r < 8 => seq(8, c requires 0 <= c < 8 => CharAt(LineAt(text, r), c)))
  }

  /** No square holds a line-break character. */
  ghost predicate NoNewline(g: Grid)
    requires IsGrid(g)
  {
    forall r, c :: IsValidPos(r, c) ==> g[r][c] != Newline
  }

  /** A line without a line break, followed by one, is split off whole
      and the rest of the text is left for the next read. */
  lemma {:induction false} SplitLineOfRow(row: string, rest: string)
    requires Newline !in row
    ensures SplitLine(row + [Newline] + rest) == (row, rest, true)
  {
    if row == [] {
      assert row + [Newline] + rest == [Newline] + rest;
    } else {
      var text := row + [Newline] + rest;
      assert text[0] == row[0] && row[0] != Newline;
      assert text[1..] == row[1..] + [Newline] + rest;
      SplitLineOfRow(row[1..], rest);
      assert [row[0]] + row[1..] == row;
    }
  }

  /** A text without a line break is one last line: it is split off whole
      and the end of the text is reached. */
  lemma {:induction false} SplitLastLine(text: string)
    requires Newline !in text
    ensures SplitLine(text) == (text, [], false)
  {
    if text != [] {
      assert Newline !in text[1..] by {
        assert forall i :: 0 <= i < |text| - 1 ==> text[1..][i] == text[i + 1];
      }
      SplitLastLine(text[1..]);
      assert [text[0]] + text[1..] == text;
    }
  }

  /** After `k` reads of an encoding the stream is still good, what is left
      is the encoding of the rows from the `k`-th on, and the string holds
      the last row read. */
  lemma {:induction false} ReadsOfEncoding(rows: seq<string>, k: nat)
    requires forall i :: 0 <= i < |rows| ==> Newline !in rows[i]
    requires 0 < k <= |rows|
    ensures Reads(EncodeRows(rows), k) == Reader(EncodeRows(rows[k..]), true, rows[k - 1])
  {
    var prev := if k == 1 then Reader(EncodeRows(rows), true, "")
                else Reads(EncodeRows(rows), k - 1);
    if k == 1 {
      assert rows[0..] == rows;
    } else {
      ReadsOfEncoding(rows, k - 1);
    }
    assert prev == Reader(EncodeRows(rows[k - 1..]), true, prev.line);
    var tail := rows[k - 1..];
    assert tail[0] == rows[k - 1] && tail[1..] == rows[k..];
    SplitLineOfRow(rows[k - 1], EncodeRows(rows[k..]));
  }

  /** The `k`-th line read back from an encoding is the `k`-th row. */
  lemma LineOfEncoding(rows: seq<string>, k: nat)
    requires forall i :: 0 <= i < |rows| ==> Newline !in rows[i]
    requires k < |rows|
    ensures LineAt(EncodeRows(rows), k) == rows[k]
  {
    ReadsOfEncoding(rows, k + 1);
  }

  /** Appending one row to the rows appends its line to the text. */
  lemma {:induction false} EncodeRowsAppend(rows: seq<string>, row: string)
    ensures EncodeRows(rows + [row]) == EncodeRows(rows) + row + [Newline]
  {
    if rows == [] {
      assert rows + [row] == [row];
    } else {
      assert (rows + [row])[1..] == rows[1..] + [row];
      EncodeRowsAppend(rows[1..], row);
    }
  }

  /** Saving a board and loading the text back gives the same symbol on
      every square, provided no square holds a line break. */
  lemma EncodeDecode(g: Grid)
    requires IsGrid(g) && NoNewline(g)
    ensures IsLoadable(Encode(g))
    ensures Decode(Encode(g)) == g
  {
    forall i | 0 <= i < 8
      ensures Newline !in g[i]
    {
      assert forall j :: 0 <= j < 8 ==> g[i][j] != Newline;
    }
    forall r | 0 <= r < 8
      ensures LineAt(Encode(g), r) == g[r]
    {
      LineOfEncoding(g, r);
    }
    SameSquaresSameGrid(Decode(Encode(g)), g);
  }

  /** A loaded board holds no line breaks, so saving it and loading that
      text again gives the loaded board back: the lines are cut, or padded
      with '\0', to 8 characters once and for all. */
  lemma DecodeEncodeDecode(text: string)
    requires IsLoadable(text)
    ensures NoNewline(Decode(text))
    ensures IsLoadable(Encode(Decode(text)))
    ensures Decode(Encode(Decode(text))) == Decode(text)
  {
    var g := Decode(text);
    forall r, c | IsValidPos(r, c)
      ensures g[r][c] != Newline
    {
      assert g[r][c] == CharAt(LineAt(text, r), c);
    }
    EncodeDecode(g);
  }

  /** Once the stream is no longer good, further reads change nothing. */
  lemma {:induction false} ReadsStuck(text: string, j: nat, k: nat)
    requires j <= k && !Reads(text, j).good
    ensures Reads(text, k) == Reads(text, j)
    decreases k - j
  {
    if j < k {
      ReadsStuck(text, j, k - 1);
    }
  }

  /** A one-line file without a line break, which a load reads without
      error: the stream reaches its end on the first read, every later
      `getline` fails and leaves the string as it was, so all 8 rows get
      that line. */
  lemma OneLineLoadsEverywhere(line: string)
    requires |line| == 8 && Newline !in line
    ensures IsLoadable(line)
    ensures Decode(line) == seq(8, r => line)
  {
    SplitLastLine(line);
    assert Reads(line, 1) == GetLine(Reader(line, true, ""));
    forall r | 0 <= r < 8
      ensures LineAt(line, r) == line
    {
      ReadsStuck(line, 1, r + 1);
    }
    SameSquaresSameGrid(Decode(line), seq(8, r => line));
  }

  /** The example of such a file: Black's back rank alone. */
  lemma BackRankFileExample()
    ensures IsLoadable("rnbqkbnr") && Decode("rnbqkbnr") == seq(8, r => "rnbqkbnr")
  {
    OneLineLoadsEverywhere("rnbqkbnr");
  }

  /** A first line of 7 characters is loaded too, with '\0', the character
      at `line[size()]`, in its last column; a first line of 6 characters
      makes the text one a load cannot read. */
  lemma ShortLines()
    ensures var text := EncodeRows(["rnbqkbn"] + seq(7, r => "........"));
      IsLoadable(text) && Decode(text)[0][6] == 'n' && Decode(text)[0][7] == Nul && Decode(text)[1][7] == '.'
    ensures !IsLoadable(EncodeRows(["rnbqkb"] + seq(7, r => "........")))
  {
    var rows := ["rnbqkbn"] + seq(7, r => "........");
    forall r | 0 <= r < 8
      ensures LineAt(EncodeRows(rows), r) == rows[r]
    {
      LineOfEncoding(rows, r);
    }
    var rows6 := ["rnbqkb"] + seq(7, r => "........");
    LineOfEncoding(rows6, 0);
  }

  /** The starting board holds no line breaks. */
  lemma InitialNoNewline()
    ensures NoNewline(InitialGrid())
  {
  }

  /** A move copies one symbol and writes '.', so it adds no line break. */
  lemma MovedNoNewline(g: Grid, fr: int, fc: int, tr: int, tc: int)
    requires IsGrid(g) && NoNewline(g) && IsValidPos(fr, fc) && IsValidPos(tr, tc)
    ensures NoNewline(Moved(g, fr, fc, tr, tc))
  {
  }
}
