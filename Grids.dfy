/** The board as a value: 8 rows of 8 symbols, row 0 being rank 8 and
    column 0 file a. Bounds, single-square updates, the relocation performed
    by a move, the starting layout and the straight-line path between two
    aligned squares are all defined here on that value. */
module Grids {
  import opened Pieces

  type Grid = seq<seq<char>>

  predicate IsGrid(g: Grid) {
    |g| == 8 && forall r :: 0 <= r < 8 ==> |g[r]| == 8
  }

  /** The bounds predicate every board access is guarded by. */
  predicate IsValidPos(r: int, c: int) {
    0 <= r < 8 && 0 <= c < 8
  }

  /** Two boards with the same symbol on every square are the same board. */
  lemma SameSquaresSameGrid(g: Grid, h: Grid)
    requires IsGrid(g) && IsGrid(h)
    requires forall r, c :: IsValidPos(r, c) ==> g[r][c] == h[r][c]
    ensures g == h
  {
    forall r | 0 <= r < 8
      ensures g[r] == h[r]
    {
      assert forall c :: 0 <= c < 8 ==> g[r][c] == h[r][c];
    }
  }

  /** The board with square (r, c) overwritten by `p`. */
  function Set(g: Grid, r: int, c: int, p: char): (h: Grid)
    requires IsGrid(g) && IsValidPos(r, c)
    ensures IsGrid(h)
    ensures h[r][c] == p
    ensures forall i, j :: IsValidPos(i, j) && (i != r || j != c) ==> h[i][j] == g[i][j]
  {
    g[r := g[r][c := p]]
  }

  /** A move relocates the origin's symbol to the destination, overwriting
      whatever stood there, and then empties the origin. */
  function Moved(g: Grid, fr: int, fc: int, tr: int, tc: int): (h: Grid)
    requires IsGrid(g) && IsValidPos(fr, fc) && IsValidPos(tr, tc)
    ensures IsGrid(h)
  {
    Set(Set(g, tr, tc, g[fr][fc]), fr, fc, EmptySymbol)
  }

  /** Between distinct squares the destination receives the origin's piece,
      the origin is emptied and no other square changes; a move onto its own
      origin just empties that square. */
  lemma MoveFrame(g: Grid, fr: int, fc: int, tr: int, tc: int)
    requires IsGrid(g) && IsValidPos(fr, fc) && IsValidPos(tr, tc)
    ensures var h := Moved(g, fr, fc, tr, tc);
      && ((fr, fc) != (tr, tc) ==> h[tr][tc] == g[fr][fc])
      && h[fr][fc] == EmptySymbol
      && forall r, c :: IsValidPos(r, c) && (r, c) != (fr, fc) && (r, c) != (tr, tc) ==> h[r][c] == g[r][c]
  {
  }

  /** The starting position: Black's back rank on row 0 and pawns on row 1,
      White's pawns on row 6 and back rank on row 7. */
  function InitialGrid(): (g: Grid)
    ensures IsGrid(g)
  {
    [ "rnbqkbnr",
      "pppppppp",
      "........",
      "........",
      "........",
      "........",
      "PPPPPPPP",
      "RNBQKBNR" ]
  }

  /** A board with pawns on rows 1 and 6, empty rows 2 to 5 and the back
      ranks of `setupBoard` on rows 0 and 7 is the starting position. */
  lemma InitialLayout(g: Grid)
    requires IsGrid(g)
    requires g[0][0] == 'r' && g[0][1] == 'n' && g[0][2] == 'b' && g[0][3] == 'q'
    requires g[0][4] == 'k' && g[0][5] == 'b' && g[0][6] == 'n' && g[0][7] == 'r'
    requires g[7][0] == 'R' && g[7][1] == 'N' && g[7][2] == 'B' && g[7][3] == 'Q'
    requires g[7][4] == 'K' && g[7][5] == 'B' && g[7][6] == 'N' && g[7][7] == 'R'
    requires forall c :: 0 <= c < 8 ==> g[1][c] == 'p' && g[6][c] == 'P'
    requires forall r, c :: 2 <= r < 6 && 0 <= c < 8 ==> g[r][c] == EmptySymbol
    ensures g == InitialGrid()
  {
    var init := InitialGrid();
    assert g[0] == init[0];
    assert g[7] == init[7];
    forall r | 1 <= r < 7
      ensures g[r] == init[r]
    {
      assert forall c :: 0 <= c < 8 ==> g[r][c] == init[r][c];
    }
  }

  function Abs(x: int): nat {
    if x < 0 then -x else x
  }

  function Max(a: int, b: int): int {
    if a < b then b else a
  }

  /** The unit step from `a` towards `b`. The source computes it as
      `d == 0 ? 0 : d / abs(d)` with `d = b - a`; that quotient is exact, so
      truncating and Euclidean division agree on it. */
  function Sign(d: int): int {
    if d == 0 then 0 else if d > 0 then 1 else -1
  }

  /** The coordinate reached after `k` unit steps from `a` towards `b`. */
  function Along(a: int, b: int, k: int): int {
    if a < b then a + k else if b < a then a - k else a
  }

  /** The number of unit steps from the origin to the destination. */
  function Dist(fr: int, fc: int, tr: int, tc: int): nat {
    Max(Abs(tr - fr), Abs(tc - fc))
  }

  /** Same rank, same file or same diagonal: the squares a path walk can
      join. */
  predicate Aligned(fr: int, fc: int, tr: int, tc: int) {
    fr == tr || fc == tc || Abs(tr - fr) == Abs(tc - fc)
  }

  /** The walk of `isPathClear`: every square visited strictly after the
      origin and strictly before the destination is empty. */
  predicate PathClear(g: Grid, fr: int, fc: int, tr: int, tc: int)
    requires IsGrid(g) && IsValidPos(fr, fc) && IsValidPos(tr, tc) && Aligned(fr, fc, tr, tc)
  {
    forall k :: 0 < k < Dist(fr, fc, tr, tc) ==> IsEmpty(g[Along(fr, tr, k)][Along(fc, tc, k)])
  }

  /** `x` lies in the closed interval spanned by `a` and `b`. */
  predicate Within(a: int, b: int, x: int) {
    if a <= b then a <= x <= b else b <= x <= a
  }

  /** Square (r, c) lies on the segment from (fr, fc) to (tr, tc) and is
      neither of its ends. This is stated geometrically, without the walk. */
  predicate StrictlyBetween(fr: int, fc: int, tr: int, tc: int, r: int, c: int) {
    && (r != fr || c != fc)
    && (r != tr || c != tc)
    && Within(fr, tr, r)
    && Within(fc, tc, c)
    && (fr == tr || fc == tc || Abs(r - fr) == Abs(c - fc))
  }

  /** Every square the walk visits before reaching the destination lies
      strictly between the two ends, and so it is on the board. */
  lemma WalkStaysBetween(fr: int, fc: int, tr: int, tc: int, k: int)
    requires IsValidPos(fr, fc) && IsValidPos(tr, tc) && Aligned(fr, fc, tr, tc)
    requires 0 < k < Dist(fr, fc, tr, tc)
    ensures StrictlyBetween(fr, fc, tr, tc, Along(fr, tr, k), Along(fc, tc, k))
    ensures IsValidPos(Along(fr, tr, k), Along(fc, tc, k))
  {
  }

  /** Every square strictly between the two ends is visited by the walk. */
  lemma BetweenIsOnWalk(fr: int, fc: int, tr: int, tc: int, r: int, c: int)
    requires IsValidPos(fr, fc) && IsValidPos(tr, tc) && Aligned(fr, fc, tr, tc)
    requires StrictlyBetween(fr, fc, tr, tc, r, c)
    ensures IsValidPos(r, c)
    ensures var k := Max(Abs(r - fr), Abs(c - fc));
      0 < k < Dist(fr, fc, tr, tc) && Along(fr, tr, k) == r && Along(fc, tc, k) == c
  {
  }

  /** The path is clear exactly when every square strictly between origin
      and destination is empty. Adjacent squares and a square with itself
      have nothing between them, so their path is always clear. */
  lemma PathClearIff(g: Grid, fr: int, fc: int, tr: int, tc: int)
    requires IsGrid(g) && IsValidPos(fr, fc) && IsValidPos(tr, tc) && Aligned(fr, fc, tr, tc)
    ensures PathClear(g, fr, fc, tr, tc) <==>
      forall r, c :: IsValidPos(r, c) && StrictlyBetween(fr, fc, tr, tc, r, c) ==> IsEmpty(g[r][c])
  {
    if PathClear(g, fr, fc, tr, tc) {
      forall r, c | IsValidPos(r, c) && StrictlyBetween(fr, fc, tr, tc, r, c)
        ensures IsEmpty(g[r][c])
      {
        BetweenIsOnWalk(fr, fc, tr, tc, r, c);
      }
    }
    if forall r, c :: IsValidPos(r, c) && StrictlyBetween(fr, fc, tr, tc, r, c) ==> IsEmpty(g[r][c]) {
      forall k | 0 < k < Dist(fr, fc, tr, tc)
        ensures IsEmpty(g[Along(fr, tr, k)][Along(fc, tc, k)])
      {
        WalkStaysBetween(fr, fc, tr, tc, k);
      }
    }
  }

  /** The walk never looks at its two ends: whatever stands on the origin
      or the destination, the answer is the same. */
  lemma PathClearIgnoresEnds(g: Grid, fr: int, fc: int, tr: int, tc: int, x: char, y: char)
    requires IsGrid(g) && IsValidPos(fr, fc) && IsValidPos(tr, tc) && Aligned(fr, fc, tr, tc)
    ensures PathClear(Set(Set(g, fr, fc, x), tr, tc, y), fr, fc, tr, tc) == PathClear(g, fr, fc, tr, tc)
  {
    var h := Set(Set(g, fr, fc, x), tr, tc, y);
    PathClearIff(g, fr, fc, tr, tc);
    PathClearIff(h, fr, fc, tr, tc);
  }

  /** Putting a piece on a square strictly between the ends blocks the
      path; emptying that square again restores the board it came from. */
  lemma BlockerClosesPath(g: Grid, fr: int, fc: int, tr: int, tc: int, r: int, c: int, x: char)
    requires IsGrid(g) && IsValidPos(fr, fc) && IsValidPos(tr, tc) && Aligned(fr, fc, tr, tc)
    requires IsValidPos(r, c) && StrictlyBetween(fr, fc, tr, tc, r, c) && !IsEmpty(x)
    ensures !PathClear(Set(g, r, c, x), fr, fc, tr, tc)
    ensures PathClear(g, fr, fc, tr, tc) ==> Set(Set(g, r, c, x), r, c, EmptySymbol) == g
  {
    PathClearIff(Set(g, r, c, x), fr, fc, tr, tc);
    if PathClear(g, fr, fc, tr, tc) {
      PathClearIff(g, fr, fc, tr, tc);
      SameSquaresSameGrid(Set(Set(g, r, c, x), r, c, EmptySymbol), g);
    }
  }

  /** A square that is not strictly between the ends has no say in whether
      the path is clear. */
  lemma OffPathSquareIrrelevant(g: Grid, fr: int, fc: int, tr: int, tc: int, r: int, c: int, x: char)
    requires IsGrid(g) && IsValidPos(fr, fc) && IsValidPos(tr, tc) && Aligned(fr, fc, tr, tc)
    requires IsValidPos(r, c) && !StrictlyBetween(fr, fc, tr, tc, r, c)
    ensures PathClear(Set(g, r, c, x), fr, fc, tr, tc) == PathClear(g, fr, fc, tr, tc)
  {
    PathClearIff(Set(g, r, c, x), fr, fc, tr, tc);
    PathClearIff(g, fr, fc, tr, tc);
  }
}
