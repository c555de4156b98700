/**
 * The table of the 36 domino tilings of the 4x4 board, `parse_pattern`, and the fixed-point
 * counts of the eight maps on this table, decided tiling by tiling.
 */
module Tilings {
  import opened Board
  import opened Canonical
  import opened Dihedral
  import opened Symmetry

  /** `ord(c) - ord('A')`: block letter A names label 0, B names 1, and so on. */
  function LabelOf(ch: char): (k: int)
    ensures 'A' <= ch <= 'H' ==> 0 <= k < 8 && LetterOf(k) == ch
  {
    ch as int - 'A' as int
  }

  /** The block letter that names label k. */
  function LetterOf(k: int): (ch: char)
    requires 0 <= k < 8
    ensures 'A' <= ch <= 'H'
  {
    ('A' as int + k) as char
  }

  /**
   * `parse_pattern`, on a letter grid already cut into rows of letters: every letter becomes
   * its label, and two cells share a label exactly when they share a letter.
   */
  function ParsePattern(rows: seq<seq<char>>): (g: seq<seq<int>>)
    ensures |g| == |rows| && forall r :: 0 <= r < |rows| ==> |g[r]| == |rows[r]|
    ensures forall r, c, r', c' :: 0 <= r < |rows| && 0 <= c < |rows[r]| && 0 <= r' < |rows| && 0 <= c' < |rows[r']| ==>
      (g[r][c] == g[r'][c'] <==> rows[r][c] == rows[r'][c'])
  {
    seq(|rows|, r requires 0 <= r < |rows| => seq(|rows[r]|, c requires 0 <= c < |rows[r]| => LabelOf(rows[r][c])))
  }

  /** The letter grid of a label grid, as the patterns are written down. */
  function Spell(g: seq<seq<int>>): (rows: seq<seq<char>>)
    requires forall r, c :: 0 <= r < |g| && 0 <= c < |g[r]| ==> 0 <= g[r][c] < 8
    ensures |rows| == |g| && forall r :: 0 <= r < |g| ==> |rows[r]| == |g[r]|
    ensures forall r, c :: 0 <= r < |g| && 0 <= c < |g[r]| ==> 'A' <= rows[r][c] <= 'H'
  {
    seq(|g|, r requires 0 <= r < |g| => seq(|g[r]|, c requires 0 <= c < |g[r]| => LetterOf(g[r][c])))
  }

  /** Parsing the spelled-out grid gives the label grid back. */
  lemma ParseSpell(g: seq<seq<int>>)
    requires forall r, c :: 0 <= r < |g| && 0 <= c < |g[r]| ==> 0 <= g[r][c] < 8
    ensures ParsePattern(Spell(g)) == g
  {
    var h := ParsePattern(Spell(g));
    forall r | 0 <= r < |g|
      ensures h[r] == g[r]
    {
      forall c | 0 <= c < |g[r]|
        ensures h[r][c] == g[r][c]
      {
        assert LabelOf(LetterOf(g[r][c])) == g[r][c];
      }
    }
  }

  /**
   * The reading-order position whose label t moves to position k: the position of
   * `Move(Inverse(t), N, CellOf(k))`, by the index arithmetic of each map.
   */
  function Source(t: Sym, k: int): int
  {
    var r, c := k / N, k % N;
    match t
    case E => k
    case R90 => N * (N - 1 - c) + r
    case R180 => N * N - 1 - k
    case R270 => N * c + N - 1 - r
    case SH => N * (N - 1 - r) + c
    case SV => N * r + N - 1 - c
    case SD1 => N * c + r
    case SD2 => N * (N - 1 - c) + N - 1 - r
  }

  lemma SourceSpec(t: Sym, p: Cell)
    requires OnBoard(p)
    ensures Source(t, Index(p)) == Index(Move(Inverse(t), N, p))
  {
  }

  /** Tiling P(i + 1) of `PATTERNS` as a grid. */
  function Pattern(i: int): (g: Grid)
    ensures IsGrid(g)
  {
    Unflatten(Layout(i))
  }

  /** `PATTERNS`: the 36 tilings in table order. */
  function Patterns(): (table: seq<Grid>)
    ensures |table| == 36 && IsTable(table)
  {
    seq(36, i requires 0 <= i < 36 => Pattern(i))
  }

  /** A table of 36 grids whose entry i reads `Layout(i)` in reading order. */
  ghost predicate HasLayouts(table: seq<Grid>)
  {
    && |table| == 36 && IsTable(table)
    && forall i :: 0 <= i < 36 ==> Flatten(table[i]) == Layout(i)
  }

  /** `PATTERNS` holds the 36 layouts. */
  lemma PatternsHaveLayouts()
    ensures HasLayouts(Patterns())
  {
    forall i | 0 <= i < 36
      ensures Flatten(Patterns()[i]) == Layout(i)
    {
      FlattenUnflatten(Layout(i));
    }
  }

  /** A table with the listed layouts is `PATTERNS` itself. */
  lemma LayoutsDeterminePatterns(table: seq<Grid>)
    requires HasLayouts(table)
    ensures table == Patterns()
  {
    forall i | 0 <= i < 36
      ensures table[i] == Patterns()[i]
    {
      UnflattenFlatten(table[i]);
    }
  }

  /** Label x renamed by perm; labels outside perm keep their name. */
  function Rename(perm: seq<int>, x: int): int
  {
    if 0 <= x < |perm| then perm[x] else x
  }

  /**
   * A tiling that t carries onto itself with its blocks renamed by f, a renaming that
   * undo reverses, is fixed by t.
   */
  lemma FixedUnderRenaming(table: seq<Grid>, i: int, t: Sym, f: int -> int, undo: int -> int)
    requires IsTable(table) && 0 <= i < |table|
    requires forall p :: OnBoard(p) ==> At(table[i], Move(Inverse(t), N, p)) == f(At(table[i], p))
    requires forall p :: OnBoard(p) ==> undo(f(At(table[i], p))) == At(table[i], p)
    ensures IsFixed(table, i, t)
  {
    var g := table[i];
    forall p | OnBoard(p)
      ensures At(Transform(g, t), p) == At(MapGrid(f, g), p)
    {
      TransformAt(g, t, p);
    }
    GridExt(Transform(g, t), MapGrid(f, g));
    forall p, q | OnBoard(p) && OnBoard(q) && f(At(g, p)) == f(At(g, q))
      ensures At(g, p) == At(g, q)
    {
      assert undo(f(At(g, p))) == At(g, p) && undo(f(At(g, q))) == At(g, q);
    }
    NormalizeRelabelInvariant(f, g);
    NormTableAt(table);
  }

  /** Two cells whose sharing of a label t changes witness that t does not fix the tiling. */
  lemma NotFixedAtCells(table: seq<Grid>, i: int, t: Sym, p: Cell, q: Cell)
    requires IsTable(table) && 0 <= i < |table| && OnBoard(p) && OnBoard(q)
    requires (At(table[i], Move(Inverse(t), N, p)) == At(table[i], Move(Inverse(t), N, q)))
          != (At(table[i], p) == At(table[i], q))
    ensures !IsFixed(table, i, t)
  {
    TransformAt(table[i], t, p);
    TransformAt(table[i], t, q);
    IsFixedIff(table, i, t);
  }

  /**
   * At position k, layout s moved by t shows `perm[x]` where s shows x, and `back`
   * takes `perm[x]` back to x.
   */
  predicate RenamedAt(s: seq<int>, t: Sym, perm: seq<int>, back: seq<int>, k: int)
    requires |s| == N * N && 0 <= k < N * N
  {
    var x := s[k];
    && 0 <= x < |perm| && 0 <= perm[x] < |back| && back[perm[x]] == x
    && 0 <= Source(t, k) < N * N && s[Source(t, k)] == perm[x]
  }

  /** `RenamedAt` at each of the sixteen positions. */
  predicate RenamedEverywhere(s: seq<int>, t: Sym, perm: seq<int>, back: seq<int>)
    requires |s| == N * N
  {
    && RenamedAt(s, t, perm, back, 0) && RenamedAt(s, t, perm, back, 1)
    && RenamedAt(s, t, perm, back, 2) && RenamedAt(s, t, perm, back, 3)
    && RenamedAt(s, t, perm, back, 4) && RenamedAt(s, t, perm, back, 5)
    && RenamedAt(s, t, perm, back, 6) && RenamedAt(s, t, perm, back, 7)
    && RenamedAt(s, t, perm, back, 8) && RenamedAt(s, t, perm, back, 9)
    && RenamedAt(s, t, perm, back, 10) && RenamedAt(s, t, perm, back, 11)
    && RenamedAt(s, t, perm, back, 12) && RenamedAt(s, t, perm, back, 13)
    && RenamedAt(s, t, perm, back, 14) && RenamedAt(s, t, perm, back, 15)
  }

  /** What `RenamedEverywhere` lists for the sixteen positions holds at every position. */
  lemma RenamedAtEveryPosition(s: seq<int>, t: Sym, perm: seq<int>, back: seq<int>)
    requires |s| == N * N && RenamedEverywhere(s, t, perm, back)
    ensures forall k :: 0 <= k < N * N ==> RenamedAt(s, t, perm, back, k)
  {
    forall k | 0 <= k < N * N
      ensures RenamedAt(s, t, perm, back, k)
    {
      assert k == 0 || k == 1 || k == 2 || k == 3 || k == 4 || k == 5 || k == 6 || k == 7
          || k == 8 || k == 9 || k == 10 || k == 11 || k == 12 || k == 13 || k == 14 || k == 15;
    }
  }

  /** Entry i is fixed by t when t moves its layout onto itself up to a reversible renaming. */
  lemma FixedByRenaming(table: seq<Grid>, i: int, t: Sym, perm: seq<int>, back: seq<int>)
    requires HasLayouts(table) && 0 <= i < 36 && RenamedEverywhere(Layout(i), t, perm, back)
    ensures IsFixed(table, i, t)
  {
    var s := Layout(i);
    RenamedAtEveryPosition(s, t, perm, back);
    FlattenAt(table[i]);
    var f, undo := x => Rename(perm, x), x => Rename(back, x);
    forall p | OnBoard(p)
      ensures At(table[i], Move(Inverse(t), N, p)) == f(At(table[i], p))
      ensures undo(f(At(table[i], p))) == At(table[i], p)
    {
      IndexInRange(p);
      IndexInRange(Move(Inverse(t), N, p));
      SourceSpec(t, p);
      assert RenamedAt(s, t, perm, back, Index(p));
    }
    FixedUnderRenaming(table, i, t, f, undo);
  }

  /** Entry i is not fixed by t when t changes whether positions a and b share a label. */
  lemma NotFixedByWitness(table: seq<Grid>, i: int, t: Sym, a: int, b: int)
    requires HasLayouts(table) && 0 <= i < 36 && 0 <= a < N * N && 0 <= b < N * N
    requires (Layout(i)[Source(t, a)] == Layout(i)[Source(t, b)]) != (Layout(i)[a] == Layout(i)[b])
    ensures !IsFixed(table, i, t)
  {
    var p, q := CellOf(a), CellOf(b);
    FlattenAt(table[i]);
    SourceSpec(t, p);
    SourceSpec(t, q);
    IndexInRange(Move(Inverse(t), N, p));
    IndexInRange(Move(Inverse(t), N, q));
    NotFixedAtCells(table, i, t, p, q);
  }

  /**
   * At position k, layout s2 shows `perm[x]` where layout s moved by t shows x, and
   * `back` takes `perm[x]` back to x.
   */
  predicate MovedAt(s: seq<int>, s2: seq<int>, t: Sym, perm: seq<int>, back: seq<int>, k: int)
    requires |s| == N * N && |s2| == N * N && 0 <= k < N * N
  {
    && 0 <= Source(t, k) < N * N
    && var x := s[Source(t, k)];
    && 0 <= x < |perm| && 0 <= perm[x] < |back| && back[perm[x]] == x
    && s2[k] == perm[x]
  }

  /** Entry i is fixed by t exactly when the listing says so. */
  ghost predicate Listed(table: seq<Grid>, i: int, t: Sym)
    requires HasLayouts(table) && 0 <= i < 36
  {
    IsFixed(table, i, t) <==> i + 1 in FixedSet(t)
  }

  lemma ListedCases(table: seq<Grid>, i: int)
    requires HasLayouts(table) && 0 <= i < 36
    requires Listed(table, i, E) && Listed(table, i, R90) && Listed(table, i, R180) && Listed(table, i, R270)
    requires Listed(table, i, SH) && Listed(table, i, SV) && Listed(table, i, SD1) && Listed(table, i, SD2)
    ensures forall t :: Listed(table, i, t)
  {
    forall t
      ensures Listed(table, i, t)
    {
      match t
      case E =>
      case R90 =>
      case R180 =>
      case R270 =>
      case SH =>
      case SV =>
      case SD1 =>
      case SD2 =>
    }
  }

  /** Tiling P(i + 1) of `PATTERNS` in reading order, with A..H read as 0..7. */
  function Layout(i: int): (s: seq<int>)
    ensures |s| == N * N
  {
    if i == 0 then [0, 0, 1, 1, 2, 2, 3, 3, 4, 4, 5, 5, 6, 6, 7, 7]
    else if i == 1 then [0, 0, 1, 1, 2, 2, 3, 3, 4, 4, 5, 6, 7, 7, 5, 6]
    else if i == 2 then [0, 0, 1, 1, 2, 2, 3, 3, 4, 5, 5, 6, 4, 7, 7, 6]
    else if i == 3 then [0, 0, 1, 1, 2, 2, 3, 3, 4, 5, 6, 6, 4, 5, 7, 7]
    else if i == 4 then [0, 0, 1, 1, 2, 2, 3, 3, 4, 5, 6, 7, 4, 5, 6, 7]
    else if i == 5 then [0, 0, 1, 1, 2, 2, 3, 4, 5, 5, 3, 4, 6, 6, 7, 7]
    else if i == 6 then [0, 0, 1, 1, 2, 2, 3, 4, 5, 6, 3, 4, 5, 6, 7, 7]
    else if i == 7 then [0, 0, 1, 1, 2, 3, 3, 4, 2, 5, 5, 4, 6, 6, 7, 7]
    else if i == 8 then [0, 0, 1, 1, 2, 3, 4, 4, 2, 3, 5, 5, 6, 6, 7, 7]
    else if i == 9 then [0, 0, 1, 1, 2, 3, 4, 4, 2, 3, 5, 6, 7, 7, 5, 6]
    else if i == 10 then [0, 0, 1, 1, 2, 3, 4, 5, 2, 3, 4, 5, 6, 6, 7, 7]
    else if i == 11 then [0, 0, 1, 2, 3, 3, 1, 2, 4, 4, 5, 5, 6, 6, 7, 7]
    else if i == 12 then [0, 0, 1, 2, 3, 3, 1, 2, 4, 4, 5, 6, 7, 7, 5, 6]
    else if i == 13 then [0, 0, 1, 2, 3, 3, 1, 2, 4, 5, 5, 6, 4, 7, 7, 6]
    else if i == 14 then [0, 0, 1, 2, 3, 3, 1, 2, 4, 5, 6, 6, 4, 5, 7, 7]
    else if i == 15 then [0, 0, 1, 2, 3, 3, 1, 2, 4, 5, 6, 7, 4, 5, 6, 7]
    else if i == 16 then [0, 0, 1, 2, 3, 4, 1, 2, 3, 4, 5, 5, 6, 6, 7, 7]
    else if i == 17 then [0, 0, 1, 2, 3, 4, 1, 2, 3, 4, 5, 6, 7, 7, 5, 6]
    else if i == 18 then [0, 1, 1, 2, 0, 3, 3, 2, 4, 4, 5, 5, 6, 6, 7, 7]
    else if i == 19 then [0, 1, 1, 2, 0, 3, 3, 2, 4, 4, 5, 6, 7, 7, 5, 6]
    else if i == 20 then [0, 1, 1, 2, 0, 3, 3, 2, 4, 5, 5, 6, 4, 7, 7, 6]
    else if i == 21 then [0, 1, 1, 2, 0, 3, 3, 2, 4, 5, 6, 6, 4, 5, 7, 7]
    else if i == 22 then [0, 1, 1, 2, 0, 3, 3, 2, 4, 5, 6, 7, 4, 5, 6, 7]
    else if i == 23 then [0, 1, 1, 2, 0, 3, 4, 2, 5, 3, 4, 6, 5, 7, 7, 6]
    else if i == 24 then [0, 1, 2, 2, 0, 1, 3, 3, 4, 4, 5, 5, 6, 6, 7, 7]
    else if i == 25 then [0, 1, 2, 2, 0, 1, 3, 3, 4, 4, 5, 6, 7, 7, 5, 6]
    else if i == 26 then [0, 1, 2, 2, 0, 1, 3, 3, 4, 5, 5, 6, 4, 7, 7, 6]
    else if i == 27 then [0, 1, 2, 2, 0, 1, 3, 3, 4, 5, 6, 6, 4, 5, 7, 7]
    else if i == 28 then [0, 1, 2, 2, 0, 1, 3, 3, 4, 5, 6, 7, 4, 5, 6, 7]
    else if i == 29 then [0, 1, 2, 2, 0, 1, 3, 4, 5, 5, 3, 4, 6, 6, 7, 7]
    else if i == 30 then [0, 1, 2, 2, 0, 1, 3, 4, 5, 6, 3, 4, 5, 6, 7, 7]
    else if i == 31 then [0, 1, 2, 3, 0, 1, 2, 3, 4, 4, 5, 5, 6, 6, 7, 7]
    else if i == 32 then [0, 1, 2, 3, 0, 1, 2, 3, 4, 4, 5, 6, 7, 7, 5, 6]
    else if i == 33 then [0, 1, 2, 3, 0, 1, 2, 3, 4, 5, 5, 6, 4, 7, 7, 6]
    else if i == 34 then [0, 1, 2, 3, 0, 1, 2, 3, 4, 5, 6, 6, 4, 5, 7, 7]
    else [0, 1, 2, 3, 0, 1, 2, 3, 4, 5, 6, 7, 4, 5, 6, 7]
  }

  /** The listing: the 1-based ids of the tilings each map fixes. */
  function FixedSet(t: Sym): (ids: set<nat>)
    ensures forall id :: id in ids ==> 1 <= id <= 36
  {
    match t
    case E => {1, 2, 3, 4, 5, 6, 7, 8, 9, 10, 11, 12, 13, 14, 15, 16, 17, 18, 19, 20, 21, 22, 23, 24, 25, 26, 27, 28, 29, 30, 31, 32, 33, 34, 35, 36}
    case R90 => {15, 26}
    case R180 => {1, 8, 11, 15, 21, 24, 26, 36}
    case R270 => {15, 26}
    case SH => {1, 6, 8, 9, 11, 13, 18, 21, 24, 28, 31, 36}
    case SV => {1, 3, 5, 8, 11, 19, 21, 23, 24, 32, 34, 36}
    case SD1 => {}
    case SD2 => {}
  }

  /** P1 is fixed by the identity, the half turn, the horizontal flip and the vertical flip, and by no other map. */
  lemma FixesOfP1(table: seq<Grid>)
    requires HasLayouts(table)
    ensures forall t :: Listed(table, 0, t)
  {
    IdentityFixes(table, 0);
    NotFixedByWitness(table, 0, R90, 0, 1);
    P1FixedBySH(table);
    P1FixedBySV(table);
    NotFixedByWitness(table, 0, SD1, 0, 1);
    NotFixedByWitness(table, 0, SD2, 0, 1);
    FixedByInverse(table, 0, R90);
    FixedCompose(table, 0, SH, SV);
    ListedCases(table, 0);
  }

  /** P2 is fixed by the identity alone. */
  lemma FixesOfP2(table: seq<Grid>)
    requires HasLayouts(table)
    ensures forall t :: Listed(table, 1, t)
  {
    IdentityFixes(table, 1);
    NotFixedByWitness(table, 1, R90, 0, 1);
    NotFixedByWitness(table, 1, SH, 2, 3);
    NotFixedByWitness(table, 1, SV, 8, 9);
    NotFixedByWitness(table, 1, SD1, 0, 1);
    NotFixedByWitness(table, 1, SD2, 2, 3);
    FixedByInverse(table, 1, R90);
    NotFixedByWitness(table, 1, R180, 0, 1);
    ListedCases(table, 1);
  }

  /** P3 is fixed by the identity and the vertical flip, and by no other map. */
  lemma FixesOfP3(table: seq<Grid>)
    requires HasLayouts(table)
    ensures forall t :: Listed(table, 2, t)
  {
    IdentityFixes(table, 2);
    NotFixedByWitness(table, 2, R90, 2, 3);
    NotFixedByWitness(table, 2, SH, 0, 1);
    P3FixedBySV(table);
    NotFixedByWitness(table, 2, SD1, 0, 1);
    NotFixedByWitness(table, 2, SD2, 2, 3);
    FixedByInverse(table, 2, R90);
    NotFixedByWitness(table, 2, R180, 0, 1);
    ListedCases(table, 2);
  }

  /** P4 is fixed by the identity alone. */
  lemma FixesOfP4(table: seq<Grid>)
    requires HasLayouts(table)
    ensures forall t :: Listed(table, 3, t)
  {
    IdentityFixes(table, 3);
    NotFixedByWitness(table, 3, R90, 2, 3);
    NotFixedByWitness(table, 3, SH, 0, 1);
    NotFixedByWitness(table, 3, SV, 8, 9);
    NotFixedByWitness(table, 3, SD1, 0, 1);
    NotFixedByWitness(table, 3, SD2, 0, 1);
    FixedByInverse(table, 3, R90);
    NotFixedByWitness(table, 3, R180, 2, 3);
    ListedCases(table, 3);
  }

  /** P5 is fixed by the identity and the vertical flip, and by no other map. */
  lemma FixesOfP5(table: seq<Grid>)
    requires HasLayouts(table)
    ensures forall t :: Listed(table, 4, t)
  {
    IdentityFixes(table, 4);
    NotFixedByWitness(table, 4, R90, 2, 3);
    NotFixedByWitness(table, 4, SH, 0, 1);
    P5FixedBySV(table);
    NotFixedByWitness(table, 4, SD1, 0, 1);
    NotFixedByWitness(table, 4, SD2, 2, 3);
    FixedByInverse(table, 4, R90);
    NotFixedByWitness(table, 4, R180, 0, 1);
    ListedCases(table, 4);
  }

  /** P6 is fixed by the identity and the horizontal flip, and by no other map. */
  lemma FixesOfP6(table: seq<Grid>)
    requires HasLayouts(table)
    ensures forall t :: Listed(table, 5, t)
  {
    IdentityFixes(table, 5);
    NotFixedByWitness(table, 5, R90, 0, 1);
    P6FixedBySH(table);
    NotFixedByWitness(table, 5, SV, 4, 5);
    NotFixedByWitness(table, 5, SD1, 0, 1);
    NotFixedByWitness(table, 5, SD2, 0, 1);
    FixedByInverse(table, 5, R90);
    NotFixedByWitness(table, 5, R180, 4, 5);
    ListedCases(table, 5);
  }

  /** P7 is fixed by the identity alone. */
  lemma FixesOfP7(table: seq<Grid>)
    requires HasLayouts(table)
    ensures forall t :: Listed(table, 6, t)
  {
    IdentityFixes(table, 6);
    NotFixedByWitness(table, 6, R90, 2, 3);
    NotFixedByWitness(table, 6, SH, 0, 1);
    NotFixedByWitness(table, 6, SV, 4, 5);
    NotFixedByWitness(table, 6, SD1, 0, 1);
    NotFixedByWitness(table, 6, SD2, 0, 1);
    FixedByInverse(table, 6, R90);
    NotFixedByWitness(table, 6, R180, 2, 3);
    ListedCases(table, 6);
  }

  /** P8 is fixed by the identity, the half turn, the horizontal flip and the vertical flip, and by no other map. */
  lemma FixesOfP8(table: seq<Grid>)
    requires HasLayouts(table)
    ensures forall t :: Listed(table, 7, t)
  {
    IdentityFixes(table, 7);
    NotFixedByWitness(table, 7, R90, 0, 1);
    P8FixedBySH(table);
    P8FixedBySV(table);
    NotFixedByWitness(table, 7, SD1, 0, 1);
    NotFixedByWitness(table, 7, SD2, 0, 1);
    FixedByInverse(table, 7, R90);
    FixedCompose(table, 7, SH, SV);
    ListedCases(table, 7);
  }

  /** P9 is fixed by the identity and the horizontal flip, and by no other map. */
  lemma FixesOfP9(table: seq<Grid>)
    requires HasLayouts(table)
    ensures forall t :: Listed(table, 8, t)
  {
    IdentityFixes(table, 8);
    NotFixedByWitness(table, 8, R90, 0, 1);
    P9FixedBySH(table);
    NotFixedByWitness(table, 8, SV, 4, 5);
    NotFixedByWitness(table, 8, SD1, 0, 1);
    NotFixedByWitness(table, 8, SD2, 0, 1);
    FixedByInverse(table, 8, R90);
    NotFixedByWitness(table, 8, R180, 4, 5);
    ListedCases(table, 8);
  }

  /** P10 is fixed by the identity alone. */
  lemma FixesOfP10(table: seq<Grid>)
    requires HasLayouts(table)
    ensures forall t :: Listed(table, 9, t)
  {
    IdentityFixes(table, 9);
    NotFixedByWitness(table, 9, R90, 0, 1);
    NotFixedByWitness(table, 9, SH, 2, 3);
    NotFixedByWitness(table, 9, SV, 4, 5);
    NotFixedByWitness(table, 9, SD1, 0, 1);
    NotFixedByWitness(table, 9, SD2, 2, 3);
    FixedByInverse(table, 9, R90);
    NotFixedByWitness(table, 9, R180, 0, 1);
    ListedCases(table, 9);
  }

  /** P11 is fixed by the identity, the half turn, the horizontal flip and the vertical flip, and by no other map. */
  lemma FixesOfP11(table: seq<Grid>)
    requires HasLayouts(table)
    ensures forall t :: Listed(table, 10, t)
  {
    IdentityFixes(table, 10);
    NotFixedByWitness(table, 10, R90, 0, 1);
    P11FixedBySH(table);
    P11FixedBySV(table);
    NotFixedByWitness(table, 10, SD1, 0, 1);
    NotFixedByWitness(table, 10, SD2, 0, 1);
    FixedByInverse(table, 10, R90);
    FixedCompose(table, 10, SH, SV);
    ListedCases(table, 10);
  }

  /** P12 is fixed by the identity alone. */
  lemma FixesOfP12(table: seq<Grid>)
    requires HasLayouts(table)
    ensures forall t :: Listed(table, 11, t)
  {
    IdentityFixes(table, 11);
    NotFixedByWitness(table, 11, R90, 0, 1);
    NotFixedByWitness(table, 11, SH, 2, 3);
    NotFixedByWitness(table, 11, SV, 0, 1);
    NotFixedByWitness(table, 11, SD1, 0, 1);
    NotFixedByWitness(table, 11, SD2, 0, 1);
    FixedByInverse(table, 11, R90);
    NotFixedByWitness(table, 11, R180, 2, 3);
    ListedCases(table, 11);
  }

  /** P13 is fixed by the identity and the horizontal flip, and by no other map. */
  lemma FixesOfP13(table: seq<Grid>)
    requires HasLayouts(table)
    ensures forall t :: Listed(table, 12, t)
  {
    IdentityFixes(table, 12);
    NotFixedByWitness(table, 12, R90, 0, 1);
    P13FixedBySH(table);
    NotFixedByWitness(table, 12, SV, 0, 1);
    NotFixedByWitness(table, 12, SD1, 0, 1);
    NotFixedByWitness(table, 12, SD2, 2, 3);
    FixedByInverse(table, 12, R90);
    NotFixedByWitness(table, 12, R180, 0, 1);
    ListedCases(table, 12);
  }

  /** P14 is fixed by the identity alone. */
  lemma FixesOfP14(table: seq<Grid>)
    requires HasLayouts(table)
    ensures forall t :: Listed(table, 13, t)
  {
    IdentityFixes(table, 13);
    NotFixedByWitness(table, 13, R90, 4, 5);
    NotFixedByWitness(table, 13, SH, 0, 1);
    NotFixedByWitness(table, 13, SV, 0, 1);
    NotFixedByWitness(table, 13, SD1, 0, 1);
    NotFixedByWitness(table, 13, SD2, 2, 3);
    FixedByInverse(table, 13, R90);
    NotFixedByWitness(table, 13, R180, 0, 1);
    ListedCases(table, 13);
  }

  /** P15 is fixed by the identity, both quarter turns and the half turn, and by no other map. */
  lemma FixesOfP15(table: seq<Grid>)
    requires HasLayouts(table)
    ensures forall t :: Listed(table, 14, t)
  {
    IdentityFixes(table, 14);
    P15FixedByR90(table);
    NotFixedByWitness(table, 14, SH, 0, 1);
    NotFixedByWitness(table, 14, SV, 0, 1);
    NotFixedByWitness(table, 14, SD1, 0, 1);
    NotFixedByWitness(table, 14, SD2, 0, 1);
    FixedByInverse(table, 14, R90);
    FixedCompose(table, 14, R90, R90);
    ListedCases(table, 14);
  }

  /** P16 is fixed by the identity alone. */
  lemma FixesOfP16(table: seq<Grid>)
    requires HasLayouts(table)
    ensures forall t :: Listed(table, 15, t)
  {
    IdentityFixes(table, 15);
    NotFixedByWitness(table, 15, R90, 8, 9);
    NotFixedByWitness(table, 15, SH, 0, 1);
    NotFixedByWitness(table, 15, SV, 0, 1);
    NotFixedByWitness(table, 15, SD1, 0, 1);
    NotFixedByWitness(table, 15, SD2, 2, 3);
    FixedByInverse(table, 15, R90);
    NotFixedByWitness(table, 15, R180, 0, 1);
    ListedCases(table, 15);
  }

  /** P17 is fixed by the identity alone. */
  lemma FixesOfP17(table: seq<Grid>)
    requires HasLayouts(table)
    ensures forall t :: Listed(table, 16, t)
  {
    IdentityFixes(table, 16);
    NotFixedByWitness(table, 16, R90, 0, 1);
    NotFixedByWitness(table, 16, SH, 2, 3);
    NotFixedByWitness(table, 16, SV, 0, 1);
    NotFixedByWitness(table, 16, SD1, 0, 1);
    NotFixedByWitness(table, 16, SD2, 0, 1);
    FixedByInverse(table, 16, R90);
    NotFixedByWitness(table, 16, R180, 2, 3);
    ListedCases(table, 16);
  }

  /** P18 is fixed by the identity and the horizontal flip, and by no other map. */
  lemma FixesOfP18(table: seq<Grid>)
    requires HasLayouts(table)
    ensures forall t :: Listed(table, 17, t)
  {
    IdentityFixes(table, 17);
    NotFixedByWitness(table, 17, R90, 0, 1);
    P18FixedBySH(table);
    NotFixedByWitness(table, 17, SV, 0, 1);
    NotFixedByWitness(table, 17, SD1, 0, 1);
    NotFixedByWitness(table, 17, SD2, 2, 3);
    FixedByInverse(table, 17, R90);
    NotFixedByWitness(table, 17, R180, 0, 1);
    ListedCases(table, 17);
  }

  /** P19 is fixed by the identity and the vertical flip, and by no other map. */
  lemma FixesOfP19(table: seq<Grid>)
    requires HasLayouts(table)
    ensures forall t :: Listed(table, 18, t)
  {
    IdentityFixes(table, 18);
    NotFixedByWitness(table, 18, R90, 1, 2);
    NotFixedByWitness(table, 18, SH, 0, 1);
    P19FixedBySV(table);
    NotFixedByWitness(table, 18, SD1, 0, 1);
    NotFixedByWitness(table, 18, SD2, 1, 2);
    FixedByInverse(table, 18, R90);
    NotFixedByWitness(table, 18, R180, 0, 1);
    ListedCases(table, 18);
  }

  /** P20 is fixed by the identity alone. */
  lemma FixesOfP20(table: seq<Grid>)
    requires HasLayouts(table)
    ensures forall t :: Listed(table, 19, t)
  {
    IdentityFixes(table, 19);
    NotFixedByWitness(table, 19, R90, 1, 2);
    NotFixedByWitness(table, 19, SH, 0, 1);
    NotFixedByWitness(table, 19, SV, 8, 9);
    NotFixedByWitness(table, 19, SD1, 0, 1);
    NotFixedByWitness(table, 19, SD2, 0, 1);
    FixedByInverse(table, 19, R90);
    NotFixedByWitness(table, 19, R180, 1, 2);
    ListedCases(table, 19);
  }

  /** P21 is fixed by the identity, the half turn, the horizontal flip and the vertical flip, and by no other map. */
  lemma FixesOfP21(table: seq<Grid>)
    requires HasLayouts(table)
    ensures forall t :: Listed(table, 20, t)
  {
    IdentityFixes(table, 20);
    NotFixedByWitness(table, 20, R90, 0, 1);
    P21FixedBySH(table);
    P21FixedBySV(table);
    NotFixedByWitness(table, 20, SD1, 0, 1);
    NotFixedByWitness(table, 20, SD2, 0, 1);
    FixedByInverse(table, 20, R90);
    FixedCompose(table, 20, SH, SV);
    ListedCases(table, 20);
  }

  /** P22 is fixed by the identity alone. */
  lemma FixesOfP22(table: seq<Grid>)
    requires HasLayouts(table)
    ensures forall t :: Listed(table, 21, t)
  {
    IdentityFixes(table, 21);
    NotFixedByWitness(table, 21, R90, 0, 1);
    NotFixedByWitness(table, 21, SH, 1, 2);
    NotFixedByWitness(table, 21, SV, 8, 9);
    NotFixedByWitness(table, 21, SD1, 0, 1);
    NotFixedByWitness(table, 21, SD2, 1, 2);
    FixedByInverse(table, 21, R90);
    NotFixedByWitness(table, 21, R180, 0, 1);
    ListedCases(table, 21);
  }

  /** P23 is fixed by the identity and the vertical flip, and by no other map. */
  lemma FixesOfP23(table: seq<Grid>)
    requires HasLayouts(table)
    ensures forall t :: Listed(table, 22, t)
  {
    IdentityFixes(table, 22);
    NotFixedByWitness(table, 22, R90, 0, 1);
    NotFixedByWitness(table, 22, SH, 1, 2);
    P23FixedBySV(table);
    NotFixedByWitness(table, 22, SD1, 0, 1);
    NotFixedByWitness(table, 22, SD2, 0, 1);
    FixedByInverse(table, 22, R90);
    NotFixedByWitness(table, 22, R180, 1, 2);
    ListedCases(table, 22);
  }

  /** P24 is fixed by the identity, the half turn, the horizontal flip and the vertical flip, and by no other map. */
  lemma FixesOfP24(table: seq<Grid>)
    requires HasLayouts(table)
    ensures forall t :: Listed(table, 23, t)
  {
    IdentityFixes(table, 23);
    NotFixedByWitness(table, 23, R90, 0, 1);
    P24FixedBySH(table);
    P24FixedBySV(table);
    NotFixedByWitness(table, 23, SD1, 0, 1);
    NotFixedByWitness(table, 23, SD2, 0, 1);
    FixedByInverse(table, 23, R90);
    FixedCompose(table, 23, SH, SV);
    ListedCases(table, 23);
  }

  /** P25 is fixed by the identity alone. */
  lemma FixesOfP25(table: seq<Grid>)
    requires HasLayouts(table)
    ensures forall t :: Listed(table, 24, t)
  {
    IdentityFixes(table, 24);
    NotFixedByWitness(table, 24, R90, 8, 9);
    NotFixedByWitness(table, 24, SH, 0, 1);
    NotFixedByWitness(table, 24, SV, 0, 1);
    NotFixedByWitness(table, 24, SD1, 0, 1);
    NotFixedByWitness(table, 24, SD2, 2, 3);
    FixedByInverse(table, 24, R90);
    NotFixedByWitness(table, 24, R180, 0, 1);
    ListedCases(table, 24);
  }

  /** P26 is fixed by the identity, both quarter turns and the half turn, and by no other map. */
  lemma FixesOfP26(table: seq<Grid>)
    requires HasLayouts(table)
    ensures forall t :: Listed(table, 25, t)
  {
    IdentityFixes(table, 25);
    P26FixedByR90(table);
    NotFixedByWitness(table, 25, SH, 0, 1);
    NotFixedByWitness(table, 25, SV, 0, 1);
    NotFixedByWitness(table, 25, SD1, 0, 1);
    NotFixedByWitness(table, 25, SD2, 0, 1);
    FixedByInverse(table, 25, R90);
    FixedCompose(table, 25, R90, R90);
    ListedCases(table, 25);
  }

  /** P27 is fixed by the identity alone. */
  lemma FixesOfP27(table: seq<Grid>)
    requires HasLayouts(table)
    ensures forall t :: Listed(table, 26, t)
  {
    IdentityFixes(table, 26);
    NotFixedByWitness(table, 26, R90, 0, 1);
    NotFixedByWitness(table, 26, SH, 1, 2);
    NotFixedByWitness(table, 26, SV, 0, 1);
    NotFixedByWitness(table, 26, SD1, 0, 1);
    NotFixedByWitness(table, 26, SD2, 0, 1);
    FixedByInverse(table, 26, R90);
    NotFixedByWitness(table, 26, R180, 1, 2);
    ListedCases(table, 26);
  }

  /** P28 is fixed by the identity and the horizontal flip, and by no other map. */
  lemma FixesOfP28(table: seq<Grid>)
    requires HasLayouts(table)
    ensures forall t :: Listed(table, 27, t)
  {
    IdentityFixes(table, 27);
    NotFixedByWitness(table, 27, R90, 0, 1);
    P28FixedBySH(table);
    NotFixedByWitness(table, 27, SV, 0, 1);
    NotFixedByWitness(table, 27, SD1, 0, 1);
    NotFixedByWitness(table, 27, SD2, 2, 3);
    FixedByInverse(table, 27, R90);
    NotFixedByWitness(table, 27, R180, 0, 1);
    ListedCases(table, 27);
  }

  /** P29 is fixed by the identity alone. */
  lemma FixesOfP29(table: seq<Grid>)
    requires HasLayouts(table)
    ensures forall t :: Listed(table, 28, t)
  {
    IdentityFixes(table, 28);
    NotFixedByWitness(table, 28, R90, 0, 1);
    NotFixedByWitness(table, 28, SH, 2, 3);
    NotFixedByWitness(table, 28, SV, 0, 1);
    NotFixedByWitness(table, 28, SD1, 0, 1);
    NotFixedByWitness(table, 28, SD2, 0, 1);
    FixedByInverse(table, 28, R90);
    NotFixedByWitness(table, 28, R180, 2, 3);
    ListedCases(table, 28);
  }

  /** P30 is fixed by the identity alone. */
  lemma FixesOfP30(table: seq<Grid>)
    requires HasLayouts(table)
    ensures forall t :: Listed(table, 29, t)
  {
    IdentityFixes(table, 29);
    NotFixedByWitness(table, 29, R90, 6, 7);
    NotFixedByWitness(table, 29, SH, 0, 1);
    NotFixedByWitness(table, 29, SV, 0, 1);
    NotFixedByWitness(table, 29, SD1, 0, 1);
    NotFixedByWitness(table, 29, SD2, 1, 2);
    FixedByInverse(table, 29, R90);
    NotFixedByWitness(table, 29, R180, 0, 1);
    ListedCases(table, 29);
  }

  /** P31 is fixed by the identity and the horizontal flip, and by no other map. */
  lemma FixesOfP31(table: seq<Grid>)
    requires HasLayouts(table)
    ensures forall t :: Listed(table, 30, t)
  {
    IdentityFixes(table, 30);
    NotFixedByWitness(table, 30, R90, 0, 1);
    P31FixedBySH(table);
    NotFixedByWitness(table, 30, SV, 0, 1);
    NotFixedByWitness(table, 30, SD1, 0, 1);
    NotFixedByWitness(table, 30, SD2, 1, 2);
    FixedByInverse(table, 30, R90);
    NotFixedByWitness(table, 30, R180, 0, 1);
    ListedCases(table, 30);
  }

  /** P32 is fixed by the identity and the vertical flip, and by no other map. */
  lemma FixesOfP32(table: seq<Grid>)
    requires HasLayouts(table)
    ensures forall t :: Listed(table, 31, t)
  {
    IdentityFixes(table, 31);
    NotFixedByWitness(table, 31, R90, 2, 3);
    NotFixedByWitness(table, 31, SH, 0, 1);
    P32FixedBySV(table);
    NotFixedByWitness(table, 31, SD1, 0, 1);
    NotFixedByWitness(table, 31, SD2, 2, 3);
    FixedByInverse(table, 31, R90);
    NotFixedByWitness(table, 31, R180, 0, 1);
    ListedCases(table, 31);
  }

  /** P33 is fixed by the identity alone. */
  lemma FixesOfP33(table: seq<Grid>)
    requires HasLayouts(table)
    ensures forall t :: Listed(table, 32, t)
  {
    IdentityFixes(table, 32);
    NotFixedByWitness(table, 32, R90, 2, 3);
    NotFixedByWitness(table, 32, SH, 0, 1);
    NotFixedByWitness(table, 32, SV, 8, 9);
    NotFixedByWitness(table, 32, SD1, 0, 1);
    NotFixedByWitness(table, 32, SD2, 0, 1);
    FixedByInverse(table, 32, R90);
    NotFixedByWitness(table, 32, R180, 2, 3);
    ListedCases(table, 32);
  }

  /** P34 is fixed by the identity and the vertical flip, and by no other map. */
  lemma FixesOfP34(table: seq<Grid>)
    requires HasLayouts(table)
    ensures forall t :: Listed(table, 33, t)
  {
    IdentityFixes(table, 33);
    NotFixedByWitness(table, 33, R90, 0, 1);
    NotFixedByWitness(table, 33, SH, 1, 2);
    P34FixedBySV(table);
    NotFixedByWitness(table, 33, SD1, 0, 1);
    NotFixedByWitness(table, 33, SD2, 0, 1);
    FixedByInverse(table, 33, R90);
    NotFixedByWitness(table, 33, R180, 1, 2);
    ListedCases(table, 33);
  }

  /** P35 is fixed by the identity alone. */
  lemma FixesOfP35(table: seq<Grid>)
    requires HasLayouts(table)
    ensures forall t :: Listed(table, 34, t)
  {
    IdentityFixes(table, 34);
    NotFixedByWitness(table, 34, R90, 0, 1);
    NotFixedByWitness(table, 34, SH, 2, 3);
    NotFixedByWitness(table, 34, SV, 8, 9);
    NotFixedByWitness(table, 34, SD1, 0, 1);
    NotFixedByWitness(table, 34, SD2, 2, 3);
    FixedByInverse(table, 34, R90);
    NotFixedByWitness(table, 34, R180, 0, 1);
    ListedCases(table, 34);
  }

  /** P36 is fixed by the identity, the half turn, the horizontal flip and the vertical flip, and by no other map. */
  lemma FixesOfP36(table: seq<Grid>)
    requires HasLayouts(table)
    ensures forall t :: Listed(table, 35, t)
  {
    IdentityFixes(table, 35);
    NotFixedByWitness(table, 35, R90, 0, 1);
    P36FixedBySH(table);
    P36FixedBySV(table);
    NotFixedByWitness(table, 35, SD1, 0, 1);
    NotFixedByWitness(table, 35, SD2, 0, 1);
    FixedByInverse(table, 35, R90);
    FixedCompose(table, 35, SH, SV);
    ListedCases(table, 35);
  }

  /** P1 is fixed by SH, which renames its blocks by [6, 7, 4, 5, 2, 3, 0, 1]. */
  lemma P1FixedBySH(table: seq<Grid>)
    requires HasLayouts(table)
    ensures IsFixed(table, 0, SH)
  {
    FixedByRenaming(table, 0, SH, [6, 7, 4, 5, 2, 3, 0, 1], [6, 7, 4, 5, 2, 3, 0, 1]);
  }

  /** P1 is fixed by SV, which renames its blocks by [1, 0, 3, 2, 5, 4, 7, 6]. */
  lemma P1FixedBySV(table: seq<Grid>)
    requires HasLayouts(table)
    ensures IsFixed(table, 0, SV)
  {
    FixedByRenaming(table, 0, SV, [1, 0, 3, 2, 5, 4, 7, 6], [1, 0, 3, 2, 5, 4, 7, 6]);
  }

  /** P3 is fixed by SV, which renames its blocks by [1, 0, 3, 2, 6, 5, 4, 7]. */
  lemma P3FixedBySV(table: seq<Grid>)
    requires HasLayouts(table)
    ensures IsFixed(table, 2, SV)
  {
    FixedByRenaming(table, 2, SV, [1, 0, 3, 2, 6, 5, 4, 7], [1, 0, 3, 2, 6, 5, 4, 7]);
  }

  /** P5 is fixed by SV, which renames its blocks by [1, 0, 3, 2, 7, 6, 5, 4]. */
  lemma P5FixedBySV(table: seq<Grid>)
    requires HasLayouts(table)
    ensures IsFixed(table, 4, SV)
  {
    FixedByRenaming(table, 4, SV, [1, 0, 3, 2, 7, 6, 5, 4], [1, 0, 3, 2, 7, 6, 5, 4]);
  }

  /** P6 is fixed by SH, which renames its blocks by [6, 7, 5, 3, 4, 2, 0, 1]. */
  lemma P6FixedBySH(table: seq<Grid>)
    requires HasLayouts(table)
    ensures IsFixed(table, 5, SH)
  {
    FixedByRenaming(table, 5, SH, [6, 7, 5, 3, 4, 2, 0, 1], [6, 7, 5, 3, 4, 2, 0, 1]);
  }

  /** P8 is fixed by SH, which renames its blocks by [6, 7, 2, 5, 4, 3, 0, 1]. */
  lemma P8FixedBySH(table: seq<Grid>)
    requires HasLayouts(table)
    ensures IsFixed(table, 7, SH)
  {
    FixedByRenaming(table, 7, SH, [6, 7, 2, 5, 4, 3, 0, 1], [6, 7, 2, 5, 4, 3, 0, 1]);
  }

  /** P8 is fixed by SV, which renames its blocks by [1, 0, 4, 3, 2, 5, 7, 6]. */
  lemma P8FixedBySV(table: seq<Grid>)
    requires HasLayouts(table)
    ensures IsFixed(table, 7, SV)
  {
    FixedByRenaming(table, 7, SV, [1, 0, 4, 3, 2, 5, 7, 6], [1, 0, 4, 3, 2, 5, 7, 6]);
  }

  /** P9 is fixed by SH, which renames its blocks by [6, 7, 2, 3, 5, 4, 0, 1]. */
  lemma P9FixedBySH(table: seq<Grid>)
    requires HasLayouts(table)
    ensures IsFixed(table, 8, SH)
  {
    FixedByRenaming(table, 8, SH, [6, 7, 2, 3, 5, 4, 0, 1], [6, 7, 2, 3, 5, 4, 0, 1]);
  }

  /** P11 is fixed by SH, which renames its blocks by [6, 7, 2, 3, 4, 5, 0, 1]. */
  lemma P11FixedBySH(table: seq<Grid>)
    requires HasLayouts(table)
    ensures IsFixed(table, 10, SH)
  {
    FixedByRenaming(table, 10, SH, [6, 7, 2, 3, 4, 5, 0, 1], [6, 7, 2, 3, 4, 5, 0, 1]);
  }

  /** P11 is fixed by SV, which renames its blocks by [1, 0, 5, 4, 3, 2, 7, 6]. */
  lemma P11FixedBySV(table: seq<Grid>)
    requires HasLayouts(table)
    ensures IsFixed(table, 10, SV)
  {
    FixedByRenaming(table, 10, SV, [1, 0, 5, 4, 3, 2, 7, 6], [1, 0, 5, 4, 3, 2, 7, 6]);
  }

  /** P13 is fixed by SH, which renames its blocks by [7, 5, 6, 4, 3, 1, 2, 0]. */
  lemma P13FixedBySH(table: seq<Grid>)
    requires HasLayouts(table)
    ensures IsFixed(table, 12, SH)
  {
    FixedByRenaming(table, 12, SH, [7, 5, 6, 4, 3, 1, 2, 0], [7, 5, 6, 4, 3, 1, 2, 0]);
  }

  /** P15 is fixed by R90, which renames its blocks by [4, 3, 0, 5, 7, 6, 1, 2]. */
  lemma P15FixedByR90(table: seq<Grid>)
    requires HasLayouts(table)
    ensures IsFixed(table, 14, R90)
  {
    FixedByRenaming(table, 14, R90, [4, 3, 0, 5, 7, 6, 1, 2], [2, 6, 7, 1, 0, 3, 5, 4]);
  }

  /** P18 is fixed by SH, which renames its blocks by [7, 5, 6, 3, 4, 1, 2, 0]. */
  lemma P18FixedBySH(table: seq<Grid>)
    requires HasLayouts(table)
    ensures IsFixed(table, 17, SH)
  {
    FixedByRenaming(table, 17, SH, [7, 5, 6, 3, 4, 1, 2, 0], [7, 5, 6, 3, 4, 1, 2, 0]);
  }

  /** P19 is fixed by SV, which renames its blocks by [2, 1, 0, 3, 5, 4, 7, 6]. */
  lemma P19FixedBySV(table: seq<Grid>)
    requires HasLayouts(table)
    ensures IsFixed(table, 18, SV)
  {
    FixedByRenaming(table, 18, SV, [2, 1, 0, 3, 5, 4, 7, 6], [2, 1, 0, 3, 5, 4, 7, 6]);
  }

  /** P21 is fixed by SH, which renames its blocks by [4, 7, 6, 5, 0, 3, 2, 1]. */
  lemma P21FixedBySH(table: seq<Grid>)
    requires HasLayouts(table)
    ensures IsFixed(table, 20, SH)
  {
    FixedByRenaming(table, 20, SH, [4, 7, 6, 5, 0, 3, 2, 1], [4, 7, 6, 5, 0, 3, 2, 1]);
  }

  /** P21 is fixed by SV, which renames its blocks by [2, 1, 0, 3, 6, 5, 4, 7]. */
  lemma P21FixedBySV(table: seq<Grid>)
    requires HasLayouts(table)
    ensures IsFixed(table, 20, SV)
  {
    FixedByRenaming(table, 20, SV, [2, 1, 0, 3, 6, 5, 4, 7], [2, 1, 0, 3, 6, 5, 4, 7]);
  }

  /** P23 is fixed by SV, which renames its blocks by [2, 1, 0, 3, 7, 6, 5, 4]. */
  lemma P23FixedBySV(table: seq<Grid>)
    requires HasLayouts(table)
    ensures IsFixed(table, 22, SV)
  {
    FixedByRenaming(table, 22, SV, [2, 1, 0, 3, 7, 6, 5, 4], [2, 1, 0, 3, 7, 6, 5, 4]);
  }

  /** P24 is fixed by SH, which renames its blocks by [5, 7, 6, 3, 4, 0, 2, 1]. */
  lemma P24FixedBySH(table: seq<Grid>)
    requires HasLayouts(table)
    ensures IsFixed(table, 23, SH)
  {
    FixedByRenaming(table, 23, SH, [5, 7, 6, 3, 4, 0, 2, 1], [5, 7, 6, 3, 4, 0, 2, 1]);
  }

  /** P24 is fixed by SV, which renames its blocks by [2, 1, 0, 4, 3, 6, 5, 7]. */
  lemma P24FixedBySV(table: seq<Grid>)
    requires HasLayouts(table)
    ensures IsFixed(table, 23, SV)
  {
    FixedByRenaming(table, 23, SV, [2, 1, 0, 4, 3, 6, 5, 7], [2, 1, 0, 4, 3, 6, 5, 7]);
  }

  /** P26 is fixed by R90, which renames its blocks by [7, 4, 0, 1, 5, 3, 2, 6]. */
  lemma P26FixedByR90(table: seq<Grid>)
    requires HasLayouts(table)
    ensures IsFixed(table, 25, R90)
  {
    FixedByRenaming(table, 25, R90, [7, 4, 0, 1, 5, 3, 2, 6], [2, 3, 6, 5, 1, 4, 7, 0]);
  }

  /** P28 is fixed by SH, which renames its blocks by [4, 5, 7, 6, 0, 1, 3, 2]. */
  lemma P28FixedBySH(table: seq<Grid>)
    requires HasLayouts(table)
    ensures IsFixed(table, 27, SH)
  {
    FixedByRenaming(table, 27, SH, [4, 5, 7, 6, 0, 1, 3, 2], [4, 5, 7, 6, 0, 1, 3, 2]);
  }

  /** P31 is fixed by SH, which renames its blocks by [5, 6, 7, 3, 4, 0, 1, 2]. */
  lemma P31FixedBySH(table: seq<Grid>)
    requires HasLayouts(table)
    ensures IsFixed(table, 30, SH)
  {
    FixedByRenaming(table, 30, SH, [5, 6, 7, 3, 4, 0, 1, 2], [5, 6, 7, 3, 4, 0, 1, 2]);
  }

  /** P32 is fixed by SV, which renames its blocks by [3, 2, 1, 0, 5, 4, 7, 6]. */
  lemma P32FixedBySV(table: seq<Grid>)
    requires HasLayouts(table)
    ensures IsFixed(table, 31, SV)
  {
    FixedByRenaming(table, 31, SV, [3, 2, 1, 0, 5, 4, 7, 6], [3, 2, 1, 0, 5, 4, 7, 6]);
  }

  /** P34 is fixed by SV, which renames its blocks by [3, 2, 1, 0, 6, 5, 4, 7]. */
  lemma P34FixedBySV(table: seq<Grid>)
    requires HasLayouts(table)
    ensures IsFixed(table, 33, SV)
  {
    FixedByRenaming(table, 33, SV, [3, 2, 1, 0, 6, 5, 4, 7], [3, 2, 1, 0, 6, 5, 4, 7]);
  }

  /** P36 is fixed by SH, which renames its blocks by [4, 5, 6, 7, 0, 1, 2, 3]. */
  lemma P36FixedBySH(table: seq<Grid>)
    requires HasLayouts(table)
    ensures IsFixed(table, 35, SH)
  {
    FixedByRenaming(table, 35, SH, [4, 5, 6, 7, 0, 1, 2, 3], [4, 5, 6, 7, 0, 1, 2, 3]);
  }

  /** P36 is fixed by SV, which renames its blocks by [3, 2, 1, 0, 7, 6, 5, 4]. */
  lemma P36FixedBySV(table: seq<Grid>)
    requires HasLayouts(table)
    ensures IsFixed(table, 35, SV)
  {
    FixedByRenaming(table, 35, SV, [3, 2, 1, 0, 7, 6, 5, 4], [3, 2, 1, 0, 7, 6, 5, 4]);
  }

  /** Every entry agrees with the listing on every map. */
  lemma AllListed(table: seq<Grid>, i: int, t: Sym)
    requires HasLayouts(table) && 0 <= i < 36
    ensures Listed(table, i, t)
  {
    if i == 0 {
      FixesOfP1(table);
    } else if i == 1 {
      FixesOfP2(table);
    } else if i == 2 {
      FixesOfP3(table);
    } else if i == 3 {
      FixesOfP4(table);
    } else if i == 4 {
      FixesOfP5(table);
    } else if i == 5 {
      FixesOfP6(table);
    } else if i == 6 {
      FixesOfP7(table);
    } else if i == 7 {
      FixesOfP8(table);
    } else if i == 8 {
      FixesOfP9(table);
    } else if i == 9 {
      FixesOfP10(table);
    } else if i == 10 {
      FixesOfP11(table);
    } else if i == 11 {
      FixesOfP12(table);
    } else if i == 12 {
      FixesOfP13(table);
    } else if i == 13 {
      FixesOfP14(table);
    } else if i == 14 {
      FixesOfP15(table);
    } else if i == 15 {
      FixesOfP16(table);
    } else if i == 16 {
      FixesOfP17(table);
    } else if i == 17 {
      FixesOfP18(table);
    } else if i == 18 {
      FixesOfP19(table);
    } else if i == 19 {
      FixesOfP20(table);
    } else if i == 20 {
      FixesOfP21(table);
    } else if i == 21 {
      FixesOfP22(table);
    } else if i == 22 {
      FixesOfP23(table);
    } else if i == 23 {
      FixesOfP24(table);
    } else if i == 24 {
      FixesOfP25(table);
    } else if i == 25 {
      FixesOfP26(table);
    } else if i == 26 {
      FixesOfP27(table);
    } else if i == 27 {
      FixesOfP28(table);
    } else if i == 28 {
      FixesOfP29(table);
    } else if i == 29 {
      FixesOfP30(table);
    } else if i == 30 {
      FixesOfP31(table);
    } else if i == 31 {
      FixesOfP32(table);
    } else if i == 32 {
      FixesOfP33(table);
    } else if i == 33 {
      FixesOfP34(table);
    } else if i == 34 {
      FixesOfP35(table);
    } else {
      FixesOfP36(table);
    }
  }

  /** A strictly increasing list has as many entries as it has distinct values. */
  lemma {:induction false} IncreasingCard(s: seq<nat>)
    requires forall k, l :: 0 <= k < l < |s| ==> s[k] < s[l]
    ensures |set x: nat | x in s| == |s|
  {
    if |s| > 0 {
      var s' := s[..|s| - 1];
      IncreasingCard(s');
      assert (set x: nat | x in s) == (set x: nat | x in s') + {s[|s| - 1]};
    }
  }

  /** When the fixed tilings of t are exactly those of a given set, so is the fixed list. */
  lemma CountFromSet(table: seq<Grid>, t: Sym, ids: set<nat>)
    requires IsTable(table)
    requires forall i :: 0 <= i < |table| ==> (IsFixed(table, i, t) <==> i + 1 in ids)
    requires forall x :: x in ids ==> 1 <= x <= |table|
    ensures forall x :: x in FixedIds(table, t) <==> x in ids
    ensures |FixedIds(table, t)| == |ids|
  {
    FixedIdsSpec(table, t);
    IncreasingCard(FixedIds(table, t));
    assert (set x: nat | x in FixedIds(table, t)) == ids;
  }

  /** On a table with the listed layouts, the fixed list of each map names exactly the listed ids. */
  lemma FixedIdsOfLayouts(table: seq<Grid>, t: Sym)
    requires HasLayouts(table)
    ensures forall x :: x in FixedIds(table, t) <==> x in FixedSet(t)
  {
    forall i | 0 <= i < 36
      ensures IsFixed(table, i, t) <==> i + 1 in FixedSet(t)
    {
      AllListed(table, i, t);
    }
    CountFromSet(table, t, FixedSet(t));
  }

  /** On a table with the listed layouts, the fixed list of each map is as long as its listing. */
  lemma FixedCountOfLayouts(table: seq<Grid>, t: Sym)
    requires HasLayouts(table)
    ensures |FixedIds(table, t)| == |FixedSet(t)|
  {
    forall i | 0 <= i < 36
      ensures IsFixed(table, i, t) <==> i + 1 in FixedSet(t)
    {
      AllListed(table, i, t);
    }
    CountFromSet(table, t, FixedSet(t));
  }

  /** P1 is fixed by the half turn: it has both mirror symmetries, whose composite is the half turn. */
  lemma FirstPatternHalfTurn(table: seq<Grid>)
    requires HasLayouts(table)
    ensures IsFixed(table, 0, R180)
  {
    P1FixedBySH(table);
    P1FixedBySV(table);
    FixedCompose(table, 0, SH, SV);
  }

  /** `CLAIMED`: the published value of |Fix(g)| for each map. */
  function Claimed(t: Sym): nat
  {
    match t
    case E => 36
    case R90 => 2
    case R180 => 8
    case R270 => 2
    case SH => 12
    case SV => 12
    case SD1 => 0
    case SD2 => 0
  }

  /** The quarter turns list two tilings each. */
  lemma ListedQuarterTurns()
    ensures |FixedSet(R90)| == 2 && |FixedSet(R270)| == 2
  {
  }

  /** The half turn lists eight tilings. */
  lemma ListedHalfTurn()
    ensures |FixedSet(R180)| == 8
  {
  }

  /** Each mid-line flip lists twelve tilings. */
  lemma ListedHorizontalFlip()
    ensures |FixedSet(SH)| == 12
  {
  }

  lemma ListedVerticalFlip()
    ensures |FixedSet(SV)| == 12
  {
  }

  /** The diagonal flips list no tiling. */
  lemma ListedDiagonalFlips()
    ensures |FixedSet(SD1)| == 0 && |FixedSet(SD2)| == 0
  {
  }

  /** The fixed list of t on a table with the listed layouts has the claimed length. */
  lemma ClaimedCountHolds(table: seq<Grid>, t: Sym)
    requires HasLayouts(table)
    ensures |FixedIds(table, t)| == Claimed(t)
  {
    if t == E {
      IdentityFixesAll(table);
    } else {
      FixedCountOfLayouts(table, t);
      match t
      case R90 => ListedQuarterTurns();
      case R270 => ListedQuarterTurns();
      case R180 => ListedHalfTurn();
      case SH => ListedHorizontalFlip();
      case SV => ListedVerticalFlip();
      case SD1 => ListedDiagonalFlips();
      case SD2 => ListedDiagonalFlips();
    }
  }

  /** The claimed counts, in `TRANSFORMS` order, add up to 72. */
  lemma ClaimedSum(counts: seq<nat>)
    requires |counts| == |Transforms|
    requires forall k :: 0 <= k < |Transforms| ==> counts[k] == Claimed(Transforms[k])
    ensures Sum(counts) == 8 * 9
  {
    var c := counts;
    assert c[0] == 36 && c[1] == 2 && c[2] == 8 && c[3] == 2;
    assert c[4] == 12 && c[5] == 12 && c[6] == 0 && c[7] == 0;
    assert c[..8] == c;
    assert Sum(c[..0]) == 0;
    assert c[..1][..0] == c[..0];
    assert Sum(c[..1]) == 36;
    assert c[..2][..1] == c[..1];
    assert Sum(c[..2]) == 38;
    assert c[..3][..2] == c[..2];
    assert Sum(c[..3]) == 46;
    assert c[..4][..3] == c[..3];
    assert Sum(c[..4]) == 48;
    assert c[..5][..4] == c[..4];
    assert Sum(c[..5]) == 60;
    assert c[..6][..5] == c[..5];
    assert Sum(c[..6]) == 72;
    assert c[..7][..6] == c[..6];
    assert Sum(c[..7]) == 72;
    assert c[..8][..7] == c[..7];
  }

  /**
   * The fixed-count loop over the table and its comparison with `CLAIMED`: every count
   * matches, so `all_ok` stays true, and the counts add up to 72 = 8 * 9.
   */
  method CheckClaimed(table: seq<Grid>) returns (counts: seq<nat>, total: nat, allOk: bool)
    requires HasLayouts(table)
    ensures |counts| == |Transforms|
    ensures forall k :: 0 <= k < |Transforms| ==> counts[k] == Claimed(Transforms[k])
    ensures total == 8 * 9 && allOk
  {
    var ids: seq<seq<nat>>;
    counts, ids, total := CountFixed(table);
    forall k | 0 <= k < |Transforms|
      ensures counts[k] == Claimed(Transforms[k])
    {
      ClaimedCountHolds(table, Transforms[k]);
    }
    allOk := true;
    for k := 0 to |Transforms|
      invariant allOk
    {
      if counts[k] != Claimed(Transforms[k]) {
        allOk := false;
      }
    }
    ClaimedSum(counts);
  }
}
