/** The 4x4 board, label grids, and what it means for a label grid to be a domino tiling. */
module Board {

  /** Side of the board (the `n = 4` of `transform_grid`). */
  const N: int := 4

  /** A label grid, `g[r][c]` for row r (0 = top) and column c (0 = left). */
  type Grid = seq<seq<int>>

  datatype Cell = Cell(r: int, c: int)

  /** Cell p lies on an n-by-n board. */
  predicate InBox(n: int, p: Cell)
  {
    0 <= p.r < n && 0 <= p.c < n
  }

  predicate OnBoard(p: Cell)
  {
    InBox(N, p)
  }

  predicate IsGrid(g: Grid)
  {
    |g| == N && forall r :: 0 <= r < N ==> |g[r]| == N
  }

  function At(g: Grid, p: Cell): int
    requires IsGrid(g) && OnBoard(p)
  {
    g[p.r][p.c]
  }

  /** Position of a cell in the row-major reading order. */
  function Index(p: Cell): int
  {
    N * p.r + p.c
  }

  /** The cell at a position of the row-major reading order. */
  function CellOf(k: int): (p: Cell)
    requires 0 <= k < N * N
    ensures OnBoard(p) && Index(p) == k
  {
    Cell(k / N, k % N)
  }

  lemma IndexInRange(p: Cell)
    requires OnBoard(p)
    ensures 0 <= Index(p) < N * N && CellOf(Index(p)) == p
  {
  }

  /** The labels in row-major reading order: the order in which `normalize` visits them. */
  function Flatten(g: Grid): (s: seq<int>)
    requires IsGrid(g)
    ensures |s| == N * N
  {
    g[0] + g[1] + g[2] + g[3]
  }

  /** Cell p of g sits at position `Index(p)` of the reading order. */
  lemma FlattenAt(g: Grid)
    requires IsGrid(g)
    ensures forall p :: OnBoard(p) ==> Flatten(g)[Index(p)] == At(g, p)
  {
  }

  /** The first k rows cut from a reading-order sequence of 16 labels. */
  function Rows(s: seq<int>, k: nat): (g: seq<seq<int>>)
    requires |s| == N * N && k <= N
    ensures |g| == k && forall r :: 0 <= r < k ==> |g[r]| == N
  {
    if k == 0 then [] else Rows(s, k - 1) + [s[N * (k - 1)..N * k]]
  }

  lemma {:induction false} RowsAt(s: seq<int>, k: nat, r: int)
    requires |s| == N * N && k <= N && 0 <= r < k
    ensures Rows(s, k)[r] == s[N * r..N * (r + 1)]
  {
    if r < k - 1 {
      RowsAt(s, k - 1, r);
    }
  }

  /** Cuts a reading-order sequence of 16 labels back into four rows. */
  function Unflatten(s: seq<int>): (g: Grid)
    requires |s| == N * N
    ensures IsGrid(g)
  {
    Rows(s, N)
  }

  /** Cell p of the cut grid holds position `Index(p)` of s. */
  lemma UnflattenAt(s: seq<int>)
    requires |s| == N * N
    ensures forall p :: OnBoard(p) ==> At(Unflatten(s), p) == s[Index(p)]
  {
    forall p | OnBoard(p)
      ensures At(Unflatten(s), p) == s[Index(p)]
    {
      RowsAt(s, N, p.r);
    }
  }

  /** Two grids are equal when they agree on every cell. */
  lemma GridExt(g: Grid, h: Grid)
    requires IsGrid(g) && IsGrid(h)
    requires forall p :: OnBoard(p) ==> At(g, p) == At(h, p)
    ensures g == h
  {
    forall r | 0 <= r < N
      ensures g[r] == h[r]
    {
      forall c | 0 <= c < N
        ensures g[r][c] == h[r][c]
      {
        assert At(g, Cell(r, c)) == At(h, Cell(r, c));
      }
    }
  }

  lemma UnflattenFlatten(g: Grid)
    requires IsGrid(g)
    ensures Unflatten(Flatten(g)) == g
  {
    UnflattenAt(Flatten(g));
    FlattenAt(g);
    GridExt(Unflatten(Flatten(g)), g);
  }

  lemma FlattenUnflatten(s: seq<int>)
    requires |s| == N * N
    ensures Flatten(Unflatten(s)) == s
  {
    var t := Flatten(Unflatten(s));
    forall k | 0 <= k < N * N
      ensures t[k] == s[k]
    {
      var p := CellOf(k);
      UnflattenAt(s);
      FlattenAt(Unflatten(s));
      assert t[Index(p)] == At(Unflatten(s), p);
    }
  }

  /** Edge-adjacent cells: they share a side. */
  predicate Adjacent(p: Cell, q: Cell)
  {
    (p.r == q.r && (p.c - q.c == 1 || q.c - p.c == 1))
    || (p.c == q.c && (p.r - q.r == 1 || q.r - p.r == 1))
  }

  /** Some other cell carries the same label as p. */
  ghost predicate HasPartner(g: Grid, p: Cell)
    requires IsGrid(g) && OnBoard(p)
  {
    exists q :: OnBoard(q) && q != p && At(g, q) == At(g, p)
  }

  lemma AdjacentFlipsParity(p: Cell, q: Cell)
    requires Adjacent(p, q)
    ensures (p.r + p.c) % 2 != (q.r + q.c) % 2
  {
  }

  /**
   * The grid is a domino tiling: every cell shares its label with some other cell,
   * and any two distinct cells sharing a label are edge-adjacent. Together these say
   * that each label covers exactly two adjacent cells (see `DominoesHaveTwoCells`).
   */
  ghost predicate IsTiling(g: Grid)
  {
    && IsGrid(g)
    && (forall p :: OnBoard(p) ==> HasPartner(g, p))
    && (forall p, q :: OnBoard(p) && OnBoard(q) && p != q && At(g, p) == At(g, q) ==> Adjacent(p, q))
  }

  /** No label covers three cells: three pairwise-adjacent cells do not exist on a grid. */
  lemma DominoesHaveTwoCells(g: Grid, p: Cell, q: Cell, s: Cell)
    requires IsTiling(g)
    requires OnBoard(p) && OnBoard(q) && OnBoard(s)
    requires p != q && q != s && p != s
    ensures !(At(g, p) == At(g, q) && At(g, q) == At(g, s))
  {
    if At(g, p) == At(g, q) && At(g, q) == At(g, s) {
      AdjacentFlipsParity(p, q);
      AdjacentFlipsParity(q, s);
      AdjacentFlipsParity(p, s);
    }
  }

  /**
   * Same domino structure: two cells share a label in g exactly when they share one in h.
   * This is "the same tiling, possibly with relabelled blocks".
   */
  ghost predicate SameShape(g: Grid, h: Grid)
    requires IsGrid(g) && IsGrid(h)
  {
    forall p, q :: OnBoard(p) && OnBoard(q) ==> (At(g, p) == At(g, q) <==> At(h, p) == At(h, q))
  }

  /** Same equality pattern of two label sequences. */
  predicate SameKernel(s: seq<int>, t: seq<int>)
  {
    |s| == |t| && forall i, j :: 0 <= i < |s| && 0 <= j < |s| ==> (s[i] == s[j] <==> t[i] == t[j])
  }

  /** The grid notion and the reading-order notion of "same structure" coincide. */
  lemma SameShapeIffKernel(g: Grid, h: Grid)
    requires IsGrid(g) && IsGrid(h)
    ensures SameShape(g, h) <==> SameKernel(Flatten(g), Flatten(h))
  {
    var s, t := Flatten(g), Flatten(h);
    if SameShape(g, h) {
      forall i, j | 0 <= i < |s| && 0 <= j < |s|
        ensures s[i] == s[j] <==> t[i] == t[j]
      {
        var p, q := CellOf(i), CellOf(j);
        assert At(g, p) == At(g, q) <==> At(h, p) == At(h, q);
      }
    }
    if SameKernel(s, t) {
      forall p, q | OnBoard(p) && OnBoard(q)
        ensures At(g, p) == At(g, q) <==> At(h, p) == At(h, q)
      {
        IndexInRange(p);
        IndexInRange(q);
        assert s[Index(p)] == s[Index(q)] <==> t[Index(p)] == t[Index(q)];
      }
    }
  }

  /** Being a tiling depends only on the domino structure, not on the label names. */
  lemma TilingRespectsShape(g: Grid, h: Grid)
    requires IsTiling(g) && IsGrid(h) && SameShape(g, h)
    ensures IsTiling(h)
  {
    forall p | OnBoard(p)
      ensures HasPartner(h, p)
    {
      assert HasPartner(g, p);
      var q :| OnBoard(q) && q != p && At(g, q) == At(g, p);
      assert At(h, q) == At(h, p);
    }
  }
}
