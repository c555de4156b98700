/**
 * The eight symmetries of the square (the dihedral group D4) as coordinate maps, their
 * group laws, and `transform_grid`, which moves the contents of a grid along one of them.
 */
module Dihedral {
  import opened Board

  /** The coordinate maps `e`, `r90`, `r180`, `r270`, `sh`, `sv`, `sd1` and `sd2`. */
  datatype Sym = E | R90 | R180 | R270 | SH | SV | SD1 | SD2

  /** `TRANSFORMS`, in its iteration order. */
  const Transforms: seq<Sym> := [E, R90, R180, R270, SH, SV, SD1, SD2]

  /**
   * Where the map sends cell p of an n-by-n board: rotations are clockwise, `SH` mirrors
   * across the horizontal midline, `SV` across the vertical one, `SD1` across the main
   * diagonal and `SD2` across the anti-diagonal.
   */
  function Move(t: Sym, n: int, p: Cell): (q: Cell)
    ensures InBox(n, p) ==> InBox(n, q)
  {
    match t
    case E => p
    case R90 => Cell(p.c, n - 1 - p.r)
    case R180 => Cell(n - 1 - p.r, n - 1 - p.c)
    case R270 => Cell(n - 1 - p.c, p.r)
    case SH => Cell(n - 1 - p.r, p.c)
    case SV => Cell(p.r, n - 1 - p.c)
    case SD1 => Cell(p.c, p.r)
    case SD2 => Cell(n - 1 - p.c, n - 1 - p.r)
  }

  /** The map undoing t: the rotations by 90 and 270 degrees undo each other, the rest undo themselves. */
  function Inverse(t: Sym): Sym
  {
    match t
    case R90 => R270
    case R270 => R90
    case _ => t
  }

  /** `Inverse(t)` undoes t, on either side. */
  lemma InverseCancels(t: Sym, n: int, p: Cell)
    ensures Move(Inverse(t), n, Move(t, n, p)) == p
    ensures Move(t, n, Move(Inverse(t), n, p)) == p
  {
  }

  /** Every map is a bijection of the n-by-n board onto itself. */
  lemma MoveBijective(t: Sym, n: int)
    ensures forall p, q :: Move(t, n, p) == Move(t, n, q) ==> p == q
    ensures forall q :: InBox(n, q) ==> exists p :: InBox(n, p) && Move(t, n, p) == q
  {
    forall p, q | Move(t, n, p) == Move(t, n, q)
      ensures p == q
    {
      InverseCancels(t, n, p);
      InverseCancels(t, n, q);
    }
    forall q | InBox(n, q)
      ensures exists p :: InBox(n, p) && Move(t, n, p) == q
    {
      InverseCancels(t, n, q);
      var p := Move(Inverse(t), n, q);
      assert InBox(n, p) && Move(t, n, p) == q;
    }
  }

  /** Quarter turns in the decomposition t = r90^k after (sv if t reflects). */
  function Turns(t: Sym): (k: int)
    ensures 0 <= k < 4
  {
    match t
    case E => 0
    case R90 => 1
    case R180 => 2
    case R270 => 3
    case SV => 0
    case SD2 => 1
    case SH => 2
    case SD1 => 3
  }

  /** The map reverses orientation. */
  predicate Reflects(t: Sym)
  {
    t.SH? || t.SV? || t.SD1? || t.SD2?
  }

  function FromParts(k: int, reflects: bool): (t: Sym)
    requires 0 <= k < 4
    ensures Turns(t) == k && Reflects(t) == reflects
  {
    if !reflects then
      (if k == 0 then E else if k == 1 then R90 else if k == 2 then R180 else R270)
    else
      (if k == 0 then SV else if k == 1 then SD2 else if k == 2 then SH else SD1)
  }

  /** The composite "first u, then t", computed from the rotation/reflection decomposition. */
  function Compose(t: Sym, u: Sym): Sym
  {
    var k := if Reflects(t) then Turns(t) - Turns(u) else Turns(t) + Turns(u);
    FromParts(Wrap(k), Reflects(t) != Reflects(u))
  }

  /** A quarter-turn count in -4 .. 7 reduced modulo 4. */
  function Wrap(k: int): (r: int)
    requires -4 <= k < 8
    ensures 0 <= r < 4 && (r == k || r == k + 4 || r == k - 4)
  {
    if k < 0 then k + 4 else if k >= 4 then k - 4 else k
  }

  /** Clockwise rotation by k quarter turns. */
  function Rotate(k: int, n: int, p: Cell): Cell
  {
    if k == 0 then p
    else if k == 1 then Cell(p.c, n - 1 - p.r)
    else if k == 2 then Cell(n - 1 - p.r, n - 1 - p.c)
    else Cell(n - 1 - p.c, p.r)
  }

  /** The mirror across the vertical midline (the map `sv`). */
  function Mirror(n: int, p: Cell): Cell
  {
    Cell(p.r, n - 1 - p.c)
  }

  /** Every map is `Turns(t)` quarter turns, after the mirror when it reflects. */
  lemma MoveParts(t: Sym, n: int, p: Cell)
    ensures Move(t, n, p) == Rotate(Turns(t), n, if Reflects(t) then Mirror(n, p) else p)
  {
  }

  lemma RotateAdd(a: int, b: int, n: int, p: Cell)
    requires 0 <= a < 4 && 0 <= b < 4
    ensures Rotate(a, n, Rotate(b, n, p)) == Rotate(Wrap(a + b), n, p)
  {
  }

  /** Mirroring a rotated cell is rotating the mirrored cell the other way. */
  lemma MirrorRotate(k: int, n: int, p: Cell)
    requires 0 <= k < 4
    ensures Mirror(n, Rotate(k, n, p)) == Rotate(Wrap(-k), n, Mirror(n, p))
  {
  }

  /** `Compose` really is composition of the maps, so the eight maps are closed under composition. */
  lemma ComposeMoves(t: Sym, u: Sym, n: int, p: Cell)
    ensures Move(Compose(t, u), n, p) == Move(t, n, Move(u, n, p))
  {
    var kt, ku := Turns(t), Turns(u);
    var q := if Reflects(u) then Mirror(n, p) else p;
    var x := Move(u, n, p);
    MoveParts(u, n, p);
    MoveParts(t, n, x);
    MoveParts(Compose(t, u), n, p);
    assert x == Rotate(ku, n, q);
    if Reflects(t) {
      MirrorRotate(ku, n, q);
      RotateAdd(kt, Wrap(-ku), n, Mirror(n, q));
      assert Wrap(kt + Wrap(-ku)) == Wrap(kt - ku);
    } else {
      RotateAdd(kt, ku, n, q);
    }
  }

  /** The laws the comments of `calculator0_symmetry_check.py` describe: r90 twice is r180, r270 undoes r90, the reflections and r180 are involutions. */
  lemma GroupLaws(n: int, p: Cell)
    ensures Move(R90, n, Move(R90, n, p)) == Move(R180, n, p)
    ensures Move(R270, n, Move(R90, n, p)) == p
    ensures Move(R180, n, Move(R180, n, p)) == p
    ensures Move(SH, n, Move(SH, n, p)) == p
    ensures Move(SV, n, Move(SV, n, p)) == p
    ensures Move(SD1, n, Move(SD1, n, p)) == p
    ensures Move(SD2, n, Move(SD2, n, p)) == p
  {
  }

  /** Different maps move some cell of the 4x4 board differently: the eight maps are eight group elements. */
  lemma MoveDetermines(t: Sym, u: Sym)
    requires Move(t, N, Cell(0, 0)) == Move(u, N, Cell(0, 0))
    requires Move(t, N, Cell(0, 1)) == Move(u, N, Cell(0, 1))
    ensures t == u
  {
  }

  /** Composition is associative. */
  lemma ComposeAssociative(t: Sym, u: Sym, w: Sym)
    ensures Compose(Compose(t, u), w) == Compose(t, Compose(u, w))
  {
    var a, b := Compose(Compose(t, u), w), Compose(t, Compose(u, w));
    forall p: Cell
      ensures Move(a, N, p) == Move(b, N, p)
    {
      ComposeMoves(Compose(t, u), w, N, p);
      ComposeMoves(t, u, N, Move(w, N, p));
      ComposeMoves(t, Compose(u, w), N, p);
      ComposeMoves(u, w, N, p);
    }
    MoveDetermines(a, b);
  }

  /** `E` is the unit of composition and `Inverse` gives two-sided inverses. */
  lemma ComposeUnitInverse(t: Sym)
    ensures Compose(E, t) == t && Compose(t, E) == t
    ensures Compose(t, Inverse(t)) == E && Compose(Inverse(t), t) == E
  {
  }

  /** The maps are isometries: they keep edge-adjacent cells edge-adjacent, and no others. */
  lemma MovePreservesAdjacency(t: Sym, n: int, p: Cell, q: Cell)
    ensures Adjacent(Move(t, n, p), Move(t, n, q)) <==> Adjacent(p, q)
  {
  }

  /** The first k cells of row r of `Transform(g, t)`: cell (r, c) is pulled from T⁻¹(r, c). */
  function PullRow(g: Grid, t: Sym, r: int, k: nat): (row: seq<int>)
    requires IsGrid(g) && 0 <= r < N && k <= N
    ensures |row| == k
  {
    if k == 0 then [] else PullRow(g, t, r, k - 1) + [At(g, Move(Inverse(t), N, Cell(r, k - 1)))]
  }

  /** The first k rows of `Transform(g, t)`. */
  function PullRows(g: Grid, t: Sym, k: nat): (rows: seq<seq<int>>)
    requires IsGrid(g) && k <= N
    ensures |rows| == k && forall r :: 0 <= r < k ==> |rows[r]| == N
  {
    if k == 0 then [] else PullRows(g, t, k - 1) + [PullRow(g, t, k - 1, N)]
  }

  lemma {:induction false} PullRowAt(g: Grid, t: Sym, r: int, k: nat, c: int)
    requires IsGrid(g) && 0 <= r < N && k <= N && 0 <= c < k
    ensures PullRow(g, t, r, k)[c] == At(g, Move(Inverse(t), N, Cell(r, c)))
  {
    if c < k - 1 {
      PullRowAt(g, t, r, k - 1, c);
    }
  }

  lemma {:induction false} PullRowsAt(g: Grid, t: Sym, k: nat, r: int)
    requires IsGrid(g) && k <= N && 0 <= r < k
    ensures PullRows(g, t, k)[r] == PullRow(g, t, r, N)
  {
    if r < k - 1 {
      PullRowsAt(g, t, k - 1, r);
    }
  }

  /**
   * `transform_grid` as a value: the grid whose cell T(p) holds what cell p holds in g.
   * Each output cell q is filled from the one cell that T sends to q.
   */
  function Transform(g: Grid, t: Sym): (h: Grid)
    requires IsGrid(g)
    ensures IsGrid(h)
  {
    PullRows(g, t, N)
  }

  /** What cell q of a transformed grid holds. */
  lemma TransformAt(g: Grid, t: Sym, q: Cell)
    requires IsGrid(g) && OnBoard(q)
    ensures OnBoard(Move(Inverse(t), N, q))
    ensures At(Transform(g, t), q) == At(g, Move(Inverse(t), N, q))
  {
    PullRowsAt(g, t, N, q.r);
    PullRowAt(g, t, q.r, N, q.c);
  }

  /** `out[T(r, c)] = in[r][c]`: every cell's label lands on the cell T sends it to. */
  lemma TransformMoves(g: Grid, t: Sym)
    requires IsGrid(g)
    ensures forall p :: OnBoard(p) ==> At(Transform(g, t), Move(t, N, p)) == At(g, p)
  {
    forall p | OnBoard(p)
      ensures At(Transform(g, t), Move(t, N, p)) == At(g, p)
    {
      InverseCancels(t, N, p);
      TransformAt(g, t, Move(t, N, p));
    }
  }

  /** The cells before position k of the reading order have been moved to their image under t. */
  ghost predicate MovedUpTo(h: Grid, g: Grid, t: Sym, k: int)
    requires IsGrid(h) && IsGrid(g)
  {
    forall p :: OnBoard(p) && Index(p) < k ==> At(h, Move(t, N, p)) == At(g, p)
  }

  /** Different cells are sent to different cells. */
  lemma MoveInjective(t: Sym, p: Cell, p': Cell)
    requires p != p'
    ensures Move(t, N, p) != Move(t, N, p')
  {
    InverseCancels(t, N, p);
    InverseCancels(t, N, p');
  }

  /** Writing v to cell q sets q and leaves every other cell alone. */
  lemma WriteCell(h: Grid, q: Cell, v: int)
    requires IsGrid(h) && OnBoard(q)
    ensures var h' := h[q.r := h[q.r][q.c := v]];
      && IsGrid(h')
      && At(h', q) == v
      && forall q' :: OnBoard(q') && q' != q ==> At(h', q') == At(h, q')
  {
  }

  /** Writing the label of the next cell p to T(p) keeps every earlier cell's write intact. */
  lemma MoveStep(h: Grid, g: Grid, t: Sym, p: Cell)
    requires IsGrid(h) && IsGrid(g) && OnBoard(p) && MovedUpTo(h, g, t, Index(p))
    ensures var q := Move(t, N, p);
      var h' := h[q.r := h[q.r][q.c := At(g, p)]];
      IsGrid(h') && MovedUpTo(h', g, t, Index(p) + 1)
  {
    var q := Move(t, N, p);
    var h' := h[q.r := h[q.r][q.c := At(g, p)]];
    WriteCell(h, q, At(g, p));
    forall p' | OnBoard(p') && Index(p') < Index(p) + 1
      ensures At(h', Move(t, N, p')) == At(g, p')
    {
      if p' != p {
        MoveInjective(t, p, p');
        assert Index(p') < Index(p);
      }
    }
  }

  /**
   * `transform_grid` as the program runs it: start from a zero grid and, for every cell
   * (r, c) in reading order, write the input's label to cell T(r, c). Every output cell
   * is written exactly once, so the result is `Transform(g, t)`.
   */
  method TransformGrid(g: Grid, t: Sym) returns (h: Grid)
    requires IsGrid(g)
    ensures IsGrid(h)
    ensures forall p :: OnBoard(p) ==> At(h, Move(t, N, p)) == At(g, p)
    ensures h == Transform(g, t)
  {
    h := seq(N, _ => seq(N, _ => 0));
    var r := 0;
    while r < N
      invariant 0 <= r <= N && IsGrid(h)
      invariant MovedUpTo(h, g, t, N * r)
    {
      var c := 0;
      while c < N
        invariant 0 <= c <= N && IsGrid(h)
        invariant MovedUpTo(h, g, t, N * r + c)
      {
        MoveStep(h, g, t, Cell(r, c));
        var q := Move(t, N, Cell(r, c));
        h := h[q.r := h[q.r][q.c := g[r][c]]];
        c := c + 1;
      }
      r := r + 1;
    }
    forall p | OnBoard(p)
      ensures At(h, Move(t, N, p)) == At(g, p)
    {
      IndexInRange(p);
    }
    forall q | OnBoard(q)
      ensures At(h, q) == At(Transform(g, t), q)
    {
      InverseCancels(t, N, q);
      TransformAt(g, t, q);
    }
    GridExt(h, Transform(g, t));
  }

  /** The identity map leaves every grid as it is. */
  lemma TransformIdentity(g: Grid)
    requires IsGrid(g)
    ensures Transform(g, E) == g
  {
    TransformMoves(g, E);
    GridExt(Transform(g, E), g);
  }

  /** Transforming by u and then by t is transforming by their composite. */
  lemma TransformCompose(g: Grid, t: Sym, u: Sym)
    requires IsGrid(g)
    ensures Transform(Transform(g, u), t) == Transform(g, Compose(t, u))
  {
    var a, b := Transform(Transform(g, u), t), Transform(g, Compose(t, u));
    forall q | OnBoard(q)
      ensures At(a, q) == At(b, q)
    {
      var p := Move(Inverse(Compose(t, u)), N, q);
      InverseCancels(Compose(t, u), N, q);
      ComposeMoves(t, u, N, p);
      TransformMoves(g, Compose(t, u));
      TransformMoves(g, u);
      TransformMoves(Transform(g, u), t);
      assert At(b, q) == At(g, p);
      assert At(a, Move(t, N, Move(u, N, p))) == At(Transform(g, u), Move(u, N, p));
    }
    GridExt(a, b);
  }

  /** Moving cell contents keeps "these two cells share a label" attached to the moved cells. */
  lemma TransformKeepsPairs(g: Grid, t: Sym, p: Cell, q: Cell)
    requires IsGrid(g) && OnBoard(p) && OnBoard(q)
    ensures At(Transform(g, t), p) == At(Transform(g, t), q) <==>
      At(g, Move(Inverse(t), N, p)) == At(g, Move(Inverse(t), N, q))
  {
    TransformAt(g, t, p);
    TransformAt(g, t, q);
  }

  /** Grids with the same domino structure still have the same structure after the same map. */
  lemma TransformRespectsShape(g: Grid, h: Grid, t: Sym)
    requires IsGrid(g) && IsGrid(h) && SameShape(g, h)
    ensures SameShape(Transform(g, t), Transform(h, t))
  {
    forall p, q | OnBoard(p) && OnBoard(q)
      ensures At(Transform(g, t), p) == At(Transform(g, t), q) <==> At(Transform(h, t), p) == At(Transform(h, t), q)
    {
      TransformKeepsPairs(g, t, p, q);
      TransformKeepsPairs(h, t, p, q);
    }
  }

  /** A cell of the transformed grid has a partner: the image of its preimage's partner. */
  lemma TransformKeepsPartner(g: Grid, t: Sym, p: Cell)
    requires IsGrid(g) && OnBoard(p) && OnBoard(Move(Inverse(t), N, p))
    requires HasPartner(g, Move(Inverse(t), N, p))
    ensures HasPartner(Transform(g, t), p)
  {
    var h := Transform(g, t);
    var p0 := Move(Inverse(t), N, p);
    var q0 :| OnBoard(q0) && q0 != p0 && At(g, q0) == At(g, p0);
    var q := Move(t, N, q0);
    InverseCancels(t, N, p);
    InverseCancels(t, N, q0);
    TransformMoves(g, t);
    assert At(h, q) == At(g, q0);
    assert At(h, p) == At(g, p0);
    assert OnBoard(q) && q != p && At(h, q) == At(h, p);
  }

  /** Two cells sharing a label in the transformed grid are images of a domino, hence adjacent. */
  lemma TransformKeepsAdjacency(g: Grid, t: Sym, p: Cell, q: Cell)
    requires IsTiling(g) && OnBoard(p) && OnBoard(q) && p != q
    requires At(Transform(g, t), p) == At(Transform(g, t), q)
    ensures Adjacent(p, q)
  {
    var p0, q0 := Move(Inverse(t), N, p), Move(Inverse(t), N, q);
    TransformKeepsPairs(g, t, p, q);
    InverseCancels(t, N, p);
    InverseCancels(t, N, q);
    assert p0 != q0;
    assert Adjacent(p0, q0);
    MovePreservesAdjacency(t, N, p0, q0);
  }

  lemma TransformHasPartners(g: Grid, t: Sym)
    requires IsTiling(g)
    ensures forall p :: OnBoard(p) ==> HasPartner(Transform(g, t), p)
  {
    forall p | OnBoard(p)
      ensures HasPartner(Transform(g, t), p)
    {
      TransformAt(g, t, p);
      TransformKeepsPartner(g, t, p);
    }
  }

  lemma TransformPairsAdjacent(g: Grid, t: Sym)
    requires IsTiling(g)
    ensures var h := Transform(g, t);
      forall p, q :: OnBoard(p) && OnBoard(q) && p != q && At(h, p) == At(h, q) ==> Adjacent(p, q)
  {
    var h := Transform(g, t);
    forall p, q | OnBoard(p) && OnBoard(q) && p != q && At(h, p) == At(h, q)
      ensures Adjacent(p, q)
    {
      TransformKeepsAdjacency(g, t, p, q);
    }
  }

  /** Every map turns a domino tiling into a domino tiling. */
  lemma TransformPreservesTiling(g: Grid, t: Sym)
    requires IsTiling(g)
    ensures IsTiling(Transform(g, t))
  {
    TransformHasPartners(g, t);
    TransformPairsAdjacent(g, t);
  }

  /** Reordering a sequence by an injective index map keeps its multiset of elements. */
  lemma {:induction false} ReorderKeepsMultiset(a: seq<int>, b: seq<int>, sigma: int -> int)
    requires |a| == |b|
    requires forall i :: 0 <= i < |b| ==> 0 <= sigma(i) < |a| && b[i] == a[sigma(i)]
    requires forall i, j :: 0 <= i < |b| && 0 <= j < |b| && sigma(i) == sigma(j) ==> i == j
    ensures multiset(a) == multiset(b)
    decreases |b|
  {
    if |b| > 0 {
      var n := |b| - 1;
      var k := sigma(n);
      var a' := a[..k] + a[k + 1..];
      var b' := b[..n];
      var sigma' := (i: int) => if sigma(i) < k then sigma(i) else sigma(i) - 1;
      forall i | 0 <= i < |b'|
        ensures 0 <= sigma'(i) < |a'| && b'[i] == a'[sigma'(i)]
      {
        assert sigma(i) != k;
      }
      ReorderKeepsMultiset(a', b', sigma');
      assert a == a[..k] + [a[k]] + a[k + 1..];
      assert b == b' + [b[n]];
    }
  }

  /** Reading order position i of the moved grid holds the label at the pulled-back position. */
  lemma PullIndexAt(g: Grid, t: Sym, i: int)
    requires IsGrid(g) && 0 <= i < N * N
    ensures var p := Move(Inverse(t), N, CellOf(i));
      && 0 <= Index(p) < N * N
      && Flatten(Transform(g, t))[i] == Flatten(g)[Index(p)]
  {
    var q := CellOf(i);
    var p := Move(Inverse(t), N, q);
    TransformAt(g, t, q);
    IndexInRange(p);
    FlattenAt(g);
    FlattenAt(Transform(g, t));
    assert Flatten(Transform(g, t))[Index(q)] == At(Transform(g, t), q);
  }

  /** Different reading-order positions are pulled back to different positions. */
  lemma PullIndexInjective(t: Sym, i: int, j: int)
    requires 0 <= i < N * N && 0 <= j < N * N
    requires Index(Move(Inverse(t), N, CellOf(i))) == Index(Move(Inverse(t), N, CellOf(j)))
    ensures i == j
  {
    var p, q := Move(Inverse(t), N, CellOf(i)), Move(Inverse(t), N, CellOf(j));
    IndexInRange(p);
    IndexInRange(q);
    InverseCancels(t, N, CellOf(i));
    InverseCancels(t, N, CellOf(j));
  }

  /** Moving cell contents neither creates nor loses labels: the multiset of labels is kept. */
  lemma TransformKeepsLabels(g: Grid, t: Sym)
    requires IsGrid(g)
    ensures multiset(Flatten(Transform(g, t))) == multiset(Flatten(g))
  {
    var a, b := Flatten(g), Flatten(Transform(g, t));
    var sigma := (k: int) => if 0 <= k < N * N then Index(Move(Inverse(t), N, CellOf(k))) else 0;
    forall i | 0 <= i < |b|
      ensures 0 <= sigma(i) < |a| && b[i] == a[sigma(i)]
    {
      PullIndexAt(g, t, i);
    }
    forall i, j | 0 <= i < |b| && 0 <= j < |b| && sigma(i) == sigma(j)
      ensures i == j
    {
      PullIndexInjective(t, i, j);
    }
    ReorderKeepsMultiset(a, b, sigma);
  }
}
