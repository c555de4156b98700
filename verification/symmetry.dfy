/**
 * Fixed points and orbits of a table of tilings under the eight maps: `NORM_PATTERNS`,
 * `is_fixed`, the fixed-count loop and the orbit (family) loop.
 */
module Symmetry {
  import opened Board
  import opened Canonical
  import opened Dihedral

  datatype Option<T> = None | Some(value: T)

  /** The values f(0), ..., f(k-1), in order: the list a comprehension over `range(k)` builds. */
  function Tabulate<T>(f: int -> T, k: nat): (s: seq<T>)
    ensures |s| == k
  {
    if k == 0 then [] else Tabulate(f, k - 1) + [f(k - 1)]
  }

  lemma {:induction false} TabulateAt<T>(f: int -> T, k: nat)
    ensures forall i :: 0 <= i < k ==> Tabulate(f, k)[i] == f(i)
  {
    if k > 0 {
      TabulateAt(f, k - 1);
    }
  }

  /** Every entry of the table is a 4x4 label grid. */
  predicate IsTable(table: seq<Grid>)
  {
    forall i :: 0 <= i < |table| ==> IsGrid(table[i])
  }

  /** `NORM_PATTERNS`: the normal form of every entry, in table order. */
  function NormTable(table: seq<Grid>): (norms: seq<Grid>)
    requires IsTable(table)
    ensures |norms| == |table|
  {
    NormPrefix(table, |table|)
  }

  /** The normal forms of the first k entries. */
  function NormPrefix(table: seq<Grid>, k: nat): (norms: seq<Grid>)
    requires IsTable(table) && k <= |table|
    ensures |norms| == k
  {
    if k == 0 then [] else NormPrefix(table, k - 1) + [Normalize(table[k - 1])]
  }

  lemma {:induction false} NormPrefixAt(table: seq<Grid>, k: nat)
    requires IsTable(table) && k <= |table|
    ensures forall i :: 0 <= i < k ==> NormPrefix(table, k)[i] == Normalize(table[i])
  {
    if k > 0 {
      NormPrefixAt(table, k - 1);
    }
  }

  /** Entry i of `NORM_PATTERNS` is the normal form of pattern i. */
  lemma NormTableAt(table: seq<Grid>)
    requires IsTable(table)
    ensures forall i :: 0 <= i < |table| ==> NormTable(table)[i] == Normalize(table[i])
  {
    NormPrefixAt(table, |table|);
  }

  /**
   * `norms.index(key)`: the first position holding key, or `None` where the program raises
   * `ValueError` because key does not occur.
   */
  function Lookup(norms: seq<Grid>, key: Grid): (r: Option<nat>)
    ensures r.Some? ==> r.value < |norms| && norms[r.value] == key && key !in norms[..r.value]
    ensures r.None? <==> key !in norms
  {
    if |norms| == 0 then None
    else if norms[0] == key then Some(0)
    else
      match Lookup(norms[1..], key)
      case None => None
      case Some(j) =>
        assert norms[..j + 1] == [norms[0]] + norms[1..][..j];
        Some(j + 1)
  }

  /** No two entries of the table have the same domino structure. */
  ghost predicate Distinct(table: seq<Grid>)
  {
    && IsTable(table)
    && forall i, j :: 0 <= i < |table| && 0 <= j < |table| && SameShape(table[i], table[j]) ==> i == j
  }

  /** Distinctness is exactly "no normal form occurs twice in `NORM_PATTERNS`". */
  lemma DistinctIffNormsDistinct(table: seq<Grid>)
    requires IsTable(table)
    ensures Distinct(table) <==>
      forall i, j :: 0 <= i < j < |table| ==> NormTable(table)[i] != NormTable(table)[j]
  {
    NormTableAt(table);
    forall i, j | 0 <= i < |table| && 0 <= j < |table|
      ensures SameShape(table[i], table[j]) <==> NormTable(table)[i] == NormTable(table)[j]
    {
      NormalizeEqualIff(table[i], table[j]);
    }
  }

  /**
   * The table position whose entry has the structure of pattern i moved by t, as the
   * orbit loop finds it: the first entry with that structure, or `None` when no entry has it.
   */
  function Image(table: seq<Grid>, i: int, t: Sym): (r: Option<nat>)
    requires IsTable(table) && 0 <= i < |table|
    ensures r.Some? ==> r.value < |table|
  {
    Lookup(NormTable(table), Normalize(Transform(table[i], t)))
  }

  /**
   * The position found holds an entry with the structure of pattern i moved by t, and no
   * earlier entry has that structure; `None` means no entry at all has it.
   */
  lemma ImageSpec(table: seq<Grid>, i: int, t: Sym)
    requires IsTable(table) && 0 <= i < |table|
    ensures var r := Image(table, i, t);
      r.Some? ==> SameShape(Transform(table[i], t), table[r.value])
    ensures var r := Image(table, i, t);
      r.Some? ==> forall k :: 0 <= k < r.value ==> !SameShape(Transform(table[i], t), table[k])
    ensures Image(table, i, t).None? <==> forall k :: 0 <= k < |table| ==> !SameShape(Transform(table[i], t), table[k])
  {
    var g := Transform(table[i], t);
    var norms := NormTable(table);
    var r := Image(table, i, t);
    NormTableAt(table);
    forall k | 0 <= k < |table|
      ensures SameShape(g, table[k]) <==> norms[k] == Normalize(g)
    {
      NormalizeEqualIff(g, table[k]);
    }
    if r.Some? {
      assert forall k :: 0 <= k < r.value ==> norms[k] == norms[..r.value][k];
    }
  }

  /** With distinct entries, the position found is the one entry of that structure. */
  lemma ImageIff(table: seq<Grid>, i: int, t: Sym, j: int)
    requires Distinct(table) && 0 <= i < |table| && 0 <= j < |table|
    ensures Image(table, i, t) == Some(j) <==> SameShape(Transform(table[i], t), table[j])
  {
    var g := Transform(table[i], t);
    ImageSpec(table, i, t);
    if SameShape(g, table[j]) {
      var r := Image(table, i, t);
      assert r.Some?;
      NormalizeEqualIff(g, table[j]);
      NormalizeEqualIff(g, table[r.value]);
      NormalizeEqualIff(table[r.value], table[j]);
    }
  }

  /**
   * `cls` names a class for each entry, and t keeps every entry in its class: the lookup
   * finds the entry that t moves entry i to, and it carries the name entry i carries.
   */
  ghost predicate Respects(table: seq<Grid>, cls: seq<int>, t: Sym)
  {
    && IsTable(table)
    && |cls| == |table|
    && forall i :: 0 <= i < |table| ==> Image(table, i, t).Some? && cls[Image(table, i, t).value] == cls[i]
  }

  /** With distinct entries, the identity sends each entry to itself and so keeps every class. */
  lemma RespectsIdentity(table: seq<Grid>, cls: seq<int>)
    requires Distinct(table) && |cls| == |table|
    ensures Respects(table, cls, E)
  {
    forall i | 0 <= i < |table|
      ensures Image(table, i, E) == Some(i)
    {
      TransformIdentity(table[i]);
      ImageIff(table, i, E, i);
    }
  }

  /** With distinct entries, classes kept by u and by t are kept by "first u, then t". */
  lemma RespectsCompose(table: seq<Grid>, cls: seq<int>, t: Sym, u: Sym)
    requires Distinct(table) && Respects(table, cls, t) && Respects(table, cls, u)
    ensures Respects(table, cls, Compose(t, u))
  {
    forall i | 0 <= i < |table|
      ensures Image(table, i, Compose(t, u)).Some?
      ensures cls[Image(table, i, Compose(t, u)).value] == cls[i]
    {
      var j := Image(table, i, u).value;
      ImageSpec(table, i, u);
      var k := Image(table, j, t).value;
      ImageSpec(table, j, t);
      ChainShape(table[i], table[j], table[k], t, u);
      ImageIff(table, i, Compose(t, u), k);
    }
  }

  /** Classes kept by the quarter turn and the vertical flip are kept by all eight maps. */
  lemma RespectsGenerators(table: seq<Grid>, cls: seq<int>)
    requires Distinct(table) && Respects(table, cls, R90) && Respects(table, cls, SV)
    ensures forall t :: Respects(table, cls, t)
  {
    RespectsIdentity(table, cls);
    RespectsCompose(table, cls, R90, R90);
    assert Compose(R90, R90) == R180;
    RespectsCompose(table, cls, R90, R180);
    assert Compose(R90, R180) == R270;
    RespectsCompose(table, cls, R180, SV);
    assert Compose(R180, SV) == SH;
    RespectsCompose(table, cls, R270, SV);
    assert Compose(R270, SV) == SD1;
    RespectsCompose(table, cls, R90, SV);
    assert Compose(R90, SV) == SD2;
    forall t
      ensures Respects(table, cls, t)
    {
      match t
      case E =>
      case R90 =>
      case R180 =>
      case R270 =>
      case SH =>
      case SV =>
      case SD1 =>
      case SD2 =>
    }
  }

  /**
   * `is_fixed(i, t)`: moving pattern i by t and normalising gives pattern i's entry of
   * `NORM_PATTERNS`; that is, t maps the tiling onto itself up to renaming its dominoes.
   */
  function IsFixed(table: seq<Grid>, i: int, t: Sym): bool
    requires IsTable(table) && 0 <= i < |table|
  {
    Normalize(Transform(table[i], t)) == NormTable(table)[i]
  }

  /** `is_fixed` holds exactly when t maps the tiling onto itself up to renaming its dominoes. */
  lemma IsFixedIff(table: seq<Grid>, i: int, t: Sym)
    requires IsTable(table) && 0 <= i < |table|
    ensures IsFixed(table, i, t) <==> SameShape(Transform(table[i], t), table[i])
  {
    NormTableAt(table);
    NormalizeEqualIff(Transform(table[i], t), table[i]);
  }

  /** The identity fixes every tiling. */
  lemma IdentityFixes(table: seq<Grid>, i: int)
    requires IsTable(table) && 0 <= i < |table|
    ensures IsFixed(table, i, E)
  {
    TransformIdentity(table[i]);
    IsFixedIff(table, i, E);
  }

  /** A tiling fixed by t is fixed by the inverse of t, and conversely. */
  lemma FixedByInverse(table: seq<Grid>, i: int, t: Sym)
    requires IsTable(table) && 0 <= i < |table|
    ensures IsFixed(table, i, t) <==> IsFixed(table, i, Inverse(t))
  {
    var g := table[i];
    IsFixedIff(table, i, t);
    IsFixedIff(table, i, Inverse(t));
    if IsFixed(table, i, t) {
      UndoTransform(g, g, t);
    }
    if IsFixed(table, i, Inverse(t)) {
      UndoTransform(g, g, Inverse(t));
      InverseInvolutive(t);
    }
  }

  lemma InverseInvolutive(t: Sym)
    ensures Inverse(Inverse(t)) == t
  {
  }

  /** If g moved by t has the structure of h, then h moved back has the structure of g. */
  lemma UndoTransform(g: Grid, h: Grid, t: Sym)
    requires IsGrid(g) && IsGrid(h) && SameShape(Transform(g, t), h)
    ensures SameShape(Transform(h, Inverse(t)), g)
  {
    TransformRespectsShape(Transform(g, t), h, Inverse(t));
    TransformCompose(g, Inverse(t), t);
    ComposeUnitInverse(t);
    TransformIdentity(g);
    NormalizeEqualIff(Transform(h, Inverse(t)), g);
    NormalizeEqualIff(g, Transform(h, Inverse(t)));
  }

  /** The maps fixing a tiling are closed under composition: they form its stabiliser. */
  lemma FixedCompose(table: seq<Grid>, i: int, t: Sym, u: Sym)
    requires IsTable(table) && 0 <= i < |table|
    requires IsFixed(table, i, t) && IsFixed(table, i, u)
    ensures IsFixed(table, i, Compose(t, u))
  {
    IsFixedIff(table, i, t);
    IsFixedIff(table, i, u);
    IsFixedIff(table, i, Compose(t, u));
    ChainShape(table[i], table[i], table[i], t, u);
  }

  /**
   * Moving g by u gives the structure of h, and moving h by t gives that of k: then moving
   * g by `Compose(t, u)` gives the structure of k.
   */
  lemma ChainShape(g: Grid, h: Grid, k: Grid, t: Sym, u: Sym)
    requires IsGrid(g) && IsGrid(h) && IsGrid(k)
    requires SameShape(Transform(g, u), h) && SameShape(Transform(h, t), k)
    ensures SameShape(Transform(g, Compose(t, u)), k)
  {
    TransformRespectsShape(Transform(g, u), h, t);
    TransformCompose(g, t, u);
    NormalizeEqualIff(Transform(Transform(g, u), t), Transform(h, t));
    NormalizeEqualIff(Transform(h, t), k);
    NormalizeEqualIff(Transform(g, Compose(t, u)), k);
  }

  /**
   * The 1-based positions, from position i on, of the entries of flags that hold, in
   * increasing order.
   */
  function Positions(flags: seq<bool>, i: nat): (ids: seq<nat>)
    requires i <= |flags|
    ensures forall k :: 0 <= k < |ids| ==> i < ids[k] <= |flags|
    ensures forall k, l :: 0 <= k < l < |ids| ==> ids[k] < ids[l]
    ensures forall x :: x in ids <==> i < x <= |flags| && flags[x - 1]
    decreases |flags| - i
  {
    if i == |flags| then []
    else (if flags[i] then [i + 1] else []) + Positions(flags, i + 1)
  }

  /** When every flag holds, the positions from i on are i + 1, i + 2, ..., |flags|. */
  lemma {:induction false} AllPositions(flags: seq<bool>, i: nat)
    requires i <= |flags| && forall k :: 0 <= k < |flags| ==> flags[k]
    ensures |Positions(flags, i)| == |flags| - i
    ensures forall k :: 0 <= k < |flags| - i ==> Positions(flags, i)[k] == i + k + 1
    decreases |flags| - i
  {
    if i < |flags| {
      AllPositions(flags, i + 1);
    }
  }

  /** `is_fixed(i, t)` as a test on table positions; false off the table. */
  function FixedTest(table: seq<Grid>, t: Sym): int -> bool
    requires IsTable(table)
  {
    i => 0 <= i < |table| && IsFixed(table, i, t)
  }

  /** `fixed_ids = [i+1 for i in range(n) if is_fixed(i, t)]`. */
  function FixedIds(table: seq<Grid>, t: Sym): (ids: seq<nat>)
    requires IsTable(table)
  {
    Positions(Tabulate(FixedTest(table, t), |table|), 0)
  }

  /**
   * The fixed list of t is increasing and names, 1-based, exactly the patterns that t
   * maps onto themselves up to renaming.
   */
  lemma FixedIdsSpec(table: seq<Grid>, t: Sym)
    requires IsTable(table)
    ensures forall k, l :: 0 <= k < l < |FixedIds(table, t)| ==> FixedIds(table, t)[k] < FixedIds(table, t)[l]
    ensures forall x :: x in FixedIds(table, t) <==> 1 <= x <= |table| && IsFixed(table, x - 1, t)
  {
    TabulateAt(FixedTest(table, t), |table|);
  }

  /** |Fix(e)| is the size of the table: the identity's list is 1, 2, ..., n. */
  lemma IdentityFixesAll(table: seq<Grid>)
    requires IsTable(table)
    ensures |FixedIds(table, E)| == |table|
    ensures forall k :: 0 <= k < |table| ==> FixedIds(table, E)[k] == k + 1
  {
    var flags := Tabulate(FixedTest(table, E), |table|);
    TabulateAt(FixedTest(table, E), |table|);
    forall k | 0 <= k < |flags|
      ensures flags[k]
    {
      IdentityFixes(table, k);
    }
    AllPositions(flags, 0);
  }

  /** The rotations by 90 and by 270 degrees fix exactly the same tilings. */
  lemma QuarterTurnsAgree(table: seq<Grid>)
    requires IsTable(table)
    ensures FixedIds(table, R90) == FixedIds(table, R270)
  {
    var a, b := Tabulate(FixedTest(table, R90), |table|), Tabulate(FixedTest(table, R270), |table|);
    TabulateAt(FixedTest(table, R90), |table|);
    TabulateAt(FixedTest(table, R270), |table|);
    forall k | 0 <= k < |table|
      ensures a[k] == b[k]
    {
      FixedByInverse(table, k, R90);
    }
    assert a == b;
  }

  /** A tiling fixed by a quarter turn is fixed by the half turn. */
  lemma QuarterTurnFixesHalfTurn(table: seq<Grid>, i: int)
    requires IsTable(table) && 0 <= i < |table| && IsFixed(table, i, R90)
    ensures IsFixed(table, i, R180)
  {
    FixedCompose(table, i, R90, R90);
    assert Compose(R90, R90) == R180;
  }

  function Sum(xs: seq<nat>): nat
  {
    if |xs| == 0 then 0 else Sum(xs[..|xs| - 1]) + xs[|xs| - 1]
  }

  /** The fixed list of the l-th map of `TRANSFORMS`. */
  function FixedListOf(table: seq<Grid>): int -> seq<nat>
    requires IsTable(table)
  {
    l => if 0 <= l < |Transforms| then FixedIds(table, Transforms[l]) else []
  }

  /** Entry k of the tabulated lists is the fixed list of the k-th map of `TRANSFORMS`. */
  lemma FixedListsAre(table: seq<Grid>)
    requires IsTable(table)
    ensures forall k :: 0 <= k < |Transforms| ==>
      Tabulate(FixedListOf(table), |Transforms|)[k] == FixedIds(table, Transforms[k])
  {
    TabulateAt(FixedListOf(table), |Transforms|);
  }

  /** The identity, first in `TRANSFORMS`, fixes every pattern. */
  lemma FirstListFull(table: seq<Grid>)
    requires IsTable(table)
    ensures |Tabulate(FixedListOf(table), |Transforms|)[0]| == |table|
  {
    TabulateAt(FixedListOf(table), |Transforms|);
    assert Transforms[0] == E;
    assert |FixedIds(table, E)| == |table| by {
      IdentityFixesAll(table);
    }
  }

  /** The quarter turns, second and fourth in `TRANSFORMS`, fix equally many patterns. */
  lemma QuarterListsAgree(table: seq<Grid>)
    requires IsTable(table)
    ensures var ids := Tabulate(FixedListOf(table), |Transforms|);
      |ids[1]| == |ids[3]|
  {
    TabulateAt(FixedListOf(table), |Transforms|);
    assert Transforms[1] == R90 && Transforms[3] == R270;
    assert FixedIds(table, R90) == FixedIds(table, R270) by {
      QuarterTurnsAgree(table);
    }
  }

  /**
   * The bookkeeping of the fixed-count loop, for any per-map list f: collect f(0), ...,
   * f(n-1), their lengths, and the running total of the lengths.
   */
  method ListLengths(f: int -> seq<nat>, n: nat) returns (counts: seq<nat>, ids: seq<seq<nat>>, total: nat)
    ensures ids == Tabulate(f, n) && |counts| == n
    ensures forall k :: 0 <= k < n ==> counts[k] == |ids[k]|
    ensures total == Sum(counts)
  {
    counts, ids, total := [], [], 0;
    var k := 0;
    while k < n
      invariant 0 <= k <= n
      invariant |counts| == k && ids == Tabulate(f, k)
      invariant forall l :: 0 <= l < k ==> counts[l] == |ids[l]|
      invariant total == Sum(counts)
    {
      var fixed := f(k);
      assert (counts + [|fixed|])[..k] == counts;
      counts, ids, total := counts + [|fixed|], ids + [fixed], total + |fixed|;
      k := k + 1;
    }
  }

  /**
   * The fixed-count loop: for each map of `TRANSFORMS` in order, the 1-based list of the
   * patterns it fixes and its length, and the running total of those lengths. The identity
   * fixes every pattern, and the two quarter turns fix the same number.
   */
  method CountFixed(table: seq<Grid>) returns (counts: seq<nat>, ids: seq<seq<nat>>, total: nat)
    requires IsTable(table)
    ensures |counts| == |Transforms| && |ids| == |Transforms|
    ensures forall k :: 0 <= k < |Transforms| ==> ids[k] == FixedIds(table, Transforms[k])
    ensures forall k :: 0 <= k < |Transforms| ==> counts[k] == |ids[k]|
    ensures counts[0] == |table| && counts[1] == counts[3]
    ensures total == Sum(counts)
  {
    counts, ids, total := ListLengths(FixedListOf(table), |Transforms|);
    FixedListsAre(table);
    FirstListFull(table);
    QuarterListsAgree(table);
  }

  /** The positions named by the `Some` entries of found: misses are skipped. */
  function Found(found: seq<Option<nat>>): set<nat>
  {
    if |found| == 0 then {}
    else
      match found[|found| - 1]
      case None => Found(found[..|found| - 1])
      case Some(j) => Found(found[..|found| - 1]) + {j}
  }

  /** One more lookup adds its position, if any, to those found. */
  lemma FoundAppend(found: seq<Option<nat>>, hit: Option<nat>)
    ensures Found(found + [hit]) == if hit.Some? then Found(found) + {hit.value} else Found(found)
  {
    assert (found + [hit])[..|found|] == found;
  }

  /** A position is found exactly when some entry names it. */
  lemma {:induction false} FoundSpec(found: seq<Option<nat>>)
    ensures forall j :: j in Found(found) <==> exists k :: 0 <= k < |found| && found[k] == Some(j)
  {
    if |found| > 0 {
      var front := found[..|found| - 1];
      FoundSpec(front);
      assert forall k :: 0 <= k < |front| ==> front[k] == found[k];
    }
  }

  /** For the first k maps of `TRANSFORMS`, in order, the position its image of pattern i is found at. */
  function Images(table: seq<Grid>, i: int, k: nat): (found: seq<Option<nat>>)
    requires IsTable(table) && 0 <= i < |table| && k <= |Transforms|
    ensures |found| == k
  {
    if k == 0 then [] else Images(table, i, k - 1) + [Image(table, i, Transforms[k - 1])]
  }

  lemma {:induction false} ImagesAt(table: seq<Grid>, i: int, k: nat, l: int)
    requires IsTable(table) && 0 <= i < |table| && k <= |Transforms| && 0 <= l < k
    ensures Images(table, i, k)[l] == Image(table, i, Transforms[l])
  {
    if l < k - 1 {
      ImagesAt(table, i, k - 1, l);
    }
  }

  /** The family of pattern i, as the orbit loop computes it. */
  function Orbit(table: seq<Grid>, i: int): set<nat>
    requires IsTable(table) && 0 <= i < |table|
  {
    Found(Images(table, i, |Transforms|))
  }

  /** The family of i holds the positions found for the eight maps, and only table positions. */
  lemma OrbitMembers(table: seq<Grid>, i: int, j: nat)
    requires IsTable(table) && 0 <= i < |table|
    ensures j in Orbit(table, i) <==> exists k :: 0 <= k < |Transforms| && Image(table, i, Transforms[k]) == Some(j)
    ensures j in Orbit(table, i) ==> j < |table|
  {
    FoundSpec(Images(table, i, |Transforms|));
    if j in Orbit(table, i) {
      var k :| 0 <= k < |Transforms| && Images(table, i, |Transforms|)[k] == Some(j);
      ImagesAt(table, i, |Transforms|, k);
    }
    if exists k :: 0 <= k < |Transforms| && Image(table, i, Transforms[k]) == Some(j) {
      var k :| 0 <= k < |Transforms| && Image(table, i, Transforms[k]) == Some(j);
      ImagesAt(table, i, |Transforms|, k);
      assert Images(table, i, |Transforms|)[k] == Some(j);
    }
  }

  /** Pattern j is some transform of pattern i, up to renaming its dominoes. */
  ghost predicate Related(table: seq<Grid>, i: int, j: int)
    requires IsTable(table) && 0 <= i < |table| && 0 <= j < |table|
  {
    exists t :: SameShape(Transform(table[i], t), table[j])
  }

  lemma EveryMapListed(t: Sym)
    ensures exists k :: 0 <= k < |Transforms| && Transforms[k] == t
  {
    match t
    case E => assert Transforms[0] == t;
    case R90 => assert Transforms[1] == t;
    case R180 => assert Transforms[2] == t;
    case R270 => assert Transforms[3] == t;
    case SH => assert Transforms[4] == t;
    case SV => assert Transforms[5] == t;
    case SD1 => assert Transforms[6] == t;
    case SD2 => assert Transforms[7] == t;
  }

  /** With distinct entries, the family of i holds exactly the patterns related to i. */
  lemma OrbitIff(table: seq<Grid>, i: int, j: int)
    requires Distinct(table) && 0 <= i < |table| && 0 <= j < |table|
    ensures j in Orbit(table, i) <==> Related(table, i, j)
  {
    OrbitMembers(table, i, j);
    if j in Orbit(table, i) {
      var k :| 0 <= k < |Transforms| && Image(table, i, Transforms[k]) == Some(j);
      ImageSpec(table, i, Transforms[k]);
      assert SameShape(Transform(table[i], Transforms[k]), table[j]);
    }
    if Related(table, i, j) {
      var t :| SameShape(Transform(table[i], t), table[j]);
      ImageIff(table, i, t, j);
      EveryMapListed(t);
    }
  }

  lemma RelatedReflexive(table: seq<Grid>, i: int)
    requires IsTable(table) && 0 <= i < |table|
    ensures Related(table, i, i)
  {
    TransformIdentity(table[i]);
    assert SameShape(Transform(table[i], E), table[i]);
  }

  lemma RelatedSymmetric(table: seq<Grid>, i: int, j: int)
    requires IsTable(table) && 0 <= i < |table| && 0 <= j < |table| && Related(table, i, j)
    ensures Related(table, j, i)
  {
    var t :| SameShape(Transform(table[i], t), table[j]);
    UndoTransform(table[i], table[j], t);
  }

  lemma RelatedTransitive(table: seq<Grid>, i: int, j: int, k: int)
    requires IsTable(table) && 0 <= i < |table| && 0 <= j < |table| && 0 <= k < |table|
    requires Related(table, i, j) && Related(table, j, k)
    ensures Related(table, i, k)
  {
    var u :| SameShape(Transform(table[i], u), table[j]);
    var t :| SameShape(Transform(table[j], t), table[k]);
    ChainShape(table[i], table[j], table[k], t, u);
  }

  /** Every family contains the pattern it was started from (through the identity). */
  lemma OrbitContainsStart(table: seq<Grid>, i: int)
    requires Distinct(table) && 0 <= i < |table|
    ensures i in Orbit(table, i)
  {
    RelatedReflexive(table, i);
    OrbitIff(table, i, i);
  }

  /** The family of any member is the whole family. */
  lemma OrbitOfMember(table: seq<Grid>, i: int, j: int)
    requires Distinct(table) && 0 <= i < |table| && 0 <= j < |table| && j in Orbit(table, i)
    ensures Orbit(table, j) == Orbit(table, i)
  {
    OrbitIff(table, i, j);
    forall k | k in Orbit(table, j)
      ensures k in Orbit(table, i)
    {
      OrbitMembers(table, j, k);
      OrbitIff(table, j, k);
      RelatedTransitive(table, i, j, k);
      OrbitIff(table, i, k);
    }
    forall k | k in Orbit(table, i)
      ensures k in Orbit(table, j)
    {
      OrbitMembers(table, i, k);
      OrbitIff(table, i, k);
      RelatedSymmetric(table, i, j);
      RelatedTransitive(table, j, i, k);
      OrbitIff(table, j, k);
    }
  }

  /** Two families are either the same set or have no pattern in common. */
  lemma OrbitsEqualOrDisjoint(table: seq<Grid>, i: int, j: int)
    requires Distinct(table) && 0 <= i < |table| && 0 <= j < |table|
    ensures Orbit(table, i) == Orbit(table, j) || Orbit(table, i) !! Orbit(table, j)
  {
    if !(Orbit(table, i) !! Orbit(table, j)) {
      var k :| k in Orbit(table, i) && k in Orbit(table, j);
      OrbitMembers(table, i, k);
      OrbitOfMember(table, i, k);
      OrbitOfMember(table, j, k);
    }
  }

  /** A class kept by all eight maps holds the whole family of each of its members. */
  lemma OrbitKeepsClass(table: seq<Grid>, cls: seq<int>, i: int, j: nat)
    requires forall t :: Respects(table, cls, t)
    requires IsTable(table) && 0 <= i < |table| && j in Orbit(table, i)
    ensures j < |table| && cls[j] == cls[i]
  {
    OrbitMembers(table, i, j);
    var k :| 0 <= k < |Transforms| && Image(table, i, Transforms[k]) == Some(j);
    assert Respects(table, cls, Transforms[k]);
  }

  /**
   * No earlier pattern is a transform of pattern i: i comes first in its family, and the
   * orbit loop starts a family there.
   */
  ghost predicate FirstOfOrbit(table: seq<Grid>, i: int)
    requires IsTable(table) && 0 <= i < |table|
  {
    forall j :: 0 <= j < i ==> !Related(table, i, j)
  }

  /** How many of the patterns 0 .. n-1 come first in their family. */
  ghost function FirstsBelow(table: seq<Grid>, n: nat): nat
    requires IsTable(table) && n <= |table|
  {
    if n == 0 then 0 else FirstsBelow(table, n - 1) + (if FirstOfOrbit(table, n - 1) then 1 else 0)
  }

  /** How many of the positions 0 .. n-1 carry their own position as class name. */
  function SelfNamed(cls: seq<int>, n: nat): nat
    requires n <= |cls|
  {
    if n == 0 then 0 else SelfNamed(cls, n - 1) + (if cls[n - 1] == n - 1 then 1 else 0)
  }

  /**
   * Each class is named by its least member: with distinct entries, classes kept by every
   * map, names no larger than their holders, and each entry related to its name, pattern i
   * comes first in its family exactly when it is the name of its class.
   */
  lemma FirstIffNamesClass(table: seq<Grid>, cls: seq<int>, i: int)
    requires Distinct(table) && |cls| == |table| && forall t :: Respects(table, cls, t)
    requires forall j :: 0 <= j < |cls| ==> 0 <= cls[j] <= j
    requires 0 <= i < |table| && Related(table, i, cls[i])
    ensures FirstOfOrbit(table, i) <==> cls[i] == i
  {
    if cls[i] == i {
      forall j | 0 <= j < i
        ensures !Related(table, i, j)
      {
        OrbitIff(table, i, j);
        if Related(table, i, j) {
          OrbitKeepsClass(table, cls, i, j);
        }
      }
    }
  }

  /** When the patterns that start a family are the class names, both are equally many. */
  lemma {:induction false} FirstsBelowNamed(table: seq<Grid>, cls: seq<int>, n: nat)
    requires IsTable(table) && |cls| == |table| && n <= |table|
    requires forall i :: 0 <= i < |table| ==> (FirstOfOrbit(table, i) <==> cls[i] == i)
    ensures FirstsBelow(table, n) == SelfNamed(cls, n)
  {
    if n > 0 {
      FirstsBelowNamed(table, cls, n - 1);
    }
  }

  function Union(sets: seq<set<nat>>): set<nat>
  {
    if |sets| == 0 then {} else Union(sets[..|sets| - 1]) + sets[|sets| - 1]
  }

  lemma {:induction false} InUnion(sets: seq<set<nat>>, x: nat)
    ensures x in Union(sets) <==> exists k :: 0 <= k < |sets| && x in sets[k]
  {
    if |sets| > 0 {
      var front := sets[..|sets| - 1];
      InUnion(front, x);
      if x in Union(front) {
        var k :| 0 <= k < |front| && x in front[k];
        assert x in sets[k];
      }
      if exists k :: 0 <= k < |sets| && x in sets[k] {
        var k :| 0 <= k < |sets| && x in sets[k];
        if k < |sets| - 1 {
          assert x in front[k];
        }
      }
    }
  }

  /** The family collected after k + 1 maps: the one after k maps, plus the k-th image if found. */
  lemma ImagesStep(table: seq<Grid>, i: int, k: nat)
    requires IsTable(table) && 0 <= i < |table| && k < |Transforms|
    ensures var hit := Image(table, i, Transforms[k]);
      Found(Images(table, i, k + 1)) == if hit.Some? then Found(Images(table, i, k)) + {hit.value} else Found(Images(table, i, k))
  {
    FoundAppend(Images(table, i, k), Image(table, i, Transforms[k]));
  }

  /**
   * The inner loop of the orbit loop: move pattern i by each map of `TRANSFORMS` in turn,
   * normalise, look the result up in `NORM_PATTERNS`, and collect the positions found,
   * skipping a miss as the program's `except ValueError: pass` does.
   */
  method CollectOrbit(table: seq<Grid>, i: int) returns (orbit: set<nat>)
    requires IsTable(table) && 0 <= i < |table|
    ensures orbit == Orbit(table, i)
  {
    orbit := {};
    var norms := NormTable(table);
    var k := 0;
    while k < |Transforms|
      invariant 0 <= k <= |Transforms|
      invariant orbit == Found(Images(table, i, k))
    {
      var moved := TransformGrid(table[i], Transforms[k]);
      var hit := Lookup(norms, Normalize(moved));
      assert hit == Image(table, i, Transforms[k]);
      ImagesStep(table, i, k);
      match hit {
        case None =>
        case Some(j) => orbit := orbit + {j};
      }
      k := k + 1;
    }
  }

  /** No two families of the list share a pattern. */
  predicate PairwiseDisjoint(orbits: seq<set<nat>>)
  {
    forall k, l :: 0 <= k < l < |orbits| ==> orbits[k] !! orbits[l]
  }

  /** A set disjoint from every member of a pairwise disjoint list can be appended to it. */
  lemma AppendDisjoint(sets: seq<set<nat>>, extra: set<nat>)
    requires PairwiseDisjoint(sets)
    requires forall k :: 0 <= k < |sets| ==> sets[k] !! extra
    ensures PairwiseDisjoint(sets + [extra])
  {
    var all := sets + [extra];
    forall k, l | 0 <= k < l < |all|
      ensures all[k] !! all[l]
    {
      assert all[k] == sets[k];
      if l < |sets| {
        assert all[l] == sets[l];
      }
    }
  }

  /**
   * A family started from a pattern that no earlier family holds is disjoint from all of
   * them, and holds its start.
   */
  lemma NewOrbitDisjoint(table: seq<Grid>, orbits: seq<set<nat>>, starts: seq<nat>, i: int)
    requires Distinct(table) && 0 <= i < |table| && |starts| == |orbits|
    requires forall k :: 0 <= k < |orbits| ==> starts[k] < |table| && orbits[k] == Orbit(table, starts[k])
    requires PairwiseDisjoint(orbits) && i !in Union(orbits)
    ensures PairwiseDisjoint(orbits + [Orbit(table, i)])
    ensures i in Orbit(table, i)
  {
    OrbitContainsStart(table, i);
    InUnion(orbits, i);
    forall k | 0 <= k < |orbits|
      ensures orbits[k] !! Orbit(table, i)
    {
      OrbitsEqualOrDisjoint(table, starts[k], i);
    }
    AppendDisjoint(orbits, Orbit(table, i));
  }

  /**
   * What the orbit loop knows after looking at patterns 0..i-1: each family found so far is
   * the orbit of a pattern below i, and with distinct entries the families are pairwise
   * disjoint and every pattern below i has been placed.
   */
  ghost predicate Placed(table: seq<Grid>, orbits: seq<set<nat>>, starts: seq<nat>, i: int)
  {
    && IsTable(table)
    && 0 <= i <= |table|
    && |starts| == |orbits|
    && (forall k :: 0 <= k < |orbits| ==> starts[k] < i && orbits[k] == Orbit(table, starts[k]))
    && (Distinct(table) ==> PairwiseDisjoint(orbits))
    && (Distinct(table) ==> forall j: nat :: j < i ==> j in Union(orbits))
  }

  /**
   * The families were started, in increasing order, exactly at the patterns below i that
   * come first in their family.
   */
  ghost predicate StartsAtFirsts(table: seq<Grid>, starts: seq<nat>, i: nat)
    requires IsTable(table) && i <= |table|
  {
    && (forall k, l :: 0 <= k < l < |starts| ==> starts[k] < starts[l])
    && (forall k :: 0 <= k < |starts| ==> starts[k] < i)
    && forall j: nat :: j < i ==> (j in starts <==> FirstOfOrbit(table, j))
  }

  /** A pattern that comes first in its family extends the list of starts. */
  lemma StartsAppend(table: seq<Grid>, starts: seq<nat>, i: nat)
    requires IsTable(table) && i < |table| && StartsAtFirsts(table, starts, i)
    requires FirstOfOrbit(table, i)
    ensures StartsAtFirsts(table, starts + [i], i + 1)
  {
    var from := starts + [i];
    assert forall j: nat :: j in from <==> j in starts || j == i;
  }

  /** A pattern that does not come first in its family leaves the list of starts as it is. */
  lemma StartsKeep(table: seq<Grid>, starts: seq<nat>, i: nat)
    requires IsTable(table) && i < |table| && StartsAtFirsts(table, starts, i)
    requires !FirstOfOrbit(table, i)
    ensures StartsAtFirsts(table, starts, i + 1)
  {
    assert i !in starts;
  }

  /** With distinct entries, pattern i is not yet placed exactly when it comes first in its family. */
  lemma UnplacedIffFirst(table: seq<Grid>, orbits: seq<set<nat>>, starts: seq<nat>, i: nat)
    requires Placed(table, orbits, starts, i) && Distinct(table) && i < |table|
    ensures i !in Union(orbits) <==> FirstOfOrbit(table, i)
  {
    if i in Union(orbits) {
      PlacedNotFirst(table, orbits, starts, i);
    }
    if !FirstOfOrbit(table, i) {
      var j :| 0 <= j < i && Related(table, i, j);
      NotFirstPlaced(table, orbits, starts, i, j);
    }
  }

  /** A placed pattern lies in the family of an earlier start. */
  lemma PlacedNotFirst(table: seq<Grid>, orbits: seq<set<nat>>, starts: seq<nat>, i: nat)
    requires Placed(table, orbits, starts, i) && Distinct(table) && i < |table|
    requires i in Union(orbits)
    ensures !FirstOfOrbit(table, i)
  {
    InUnion(orbits, i);
    var k :| 0 <= k < |orbits| && i in orbits[k];
    var s := starts[k];
    OrbitMembers(table, s, i);
    OrbitOfMember(table, s, i);
    OrbitContainsStart(table, s);
    OrbitIff(table, i, s);
    assert s < i && Related(table, i, s);
  }

  /** A pattern related to an earlier, placed pattern is placed in the same family. */
  lemma NotFirstPlaced(table: seq<Grid>, orbits: seq<set<nat>>, starts: seq<nat>, i: nat, j: nat)
    requires Placed(table, orbits, starts, i) && Distinct(table) && i < |table|
    requires j < i && Related(table, i, j)
    ensures i in Union(orbits)
  {
    OrbitIff(table, i, j);
    InUnion(orbits, j);
    var k :| 0 <= k < |orbits| && j in orbits[k];
    var s := starts[k];
    OrbitMembers(table, s, j);
    OrbitOfMember(table, i, j);
    OrbitOfMember(table, s, j);
    OrbitContainsStart(table, i);
    assert i in orbits[k];
    InUnion(orbits, i);
  }

  lemma UnionAppend(sets: seq<set<nat>>, extra: set<nat>)
    ensures Union(sets + [extra]) == Union(sets) + extra
  {
    assert (sets + [extra])[..|sets|] == sets;
  }

  /** Adding a set that holds i extends a cover of 0 .. i-1 to a cover of 0 .. i. */
  lemma CoverStep(covered: set<nat>, extra: set<nat>, i: nat)
    requires forall j: nat :: j < i ==> j in covered
    requires i in extra
    ensures forall j: nat :: j < i + 1 ==> j in covered + extra
  {
  }

  /** Pattern i is not yet placed: its orbit becomes a new family. */
  lemma PlaceNew(table: seq<Grid>, orbits: seq<set<nat>>, starts: seq<nat>, i: nat)
    requires Placed(table, orbits, starts, i) && i < |table| && i !in Union(orbits)
    ensures Placed(table, orbits + [Orbit(table, i)], starts + [i], i + 1)
    ensures Union(orbits + [Orbit(table, i)]) == Union(orbits) + Orbit(table, i)
  {
    var o := Orbit(table, i);
    var all, from := orbits + [o], starts + [i];
    UnionAppend(orbits, o);
    forall k | 0 <= k < |all|
      ensures from[k] < i + 1 && all[k] == Orbit(table, from[k])
    {
      if k < |orbits| {
        assert all[k] == orbits[k] && from[k] == starts[k];
      }
    }
    if Distinct(table) {
      NewOrbitDisjoint(table, orbits, starts, i);
      CoverStep(Union(orbits), o, i);
    }
  }

  /** Pattern i is already in a family: nothing new is started. */
  lemma SkipPlaced(table: seq<Grid>, orbits: seq<set<nat>>, starts: seq<nat>, i: nat)
    requires Placed(table, orbits, starts, i) && i < |table| && i in Union(orbits)
    ensures Placed(table, orbits, starts, i + 1)
  {
  }

  /** The set is the family of some pattern of the table. */
  ghost predicate IsOrbit(table: seq<Grid>, o: set<nat>)
    requires IsTable(table)
  {
    exists s :: 0 <= s < |table| && o == Orbit(table, s)
  }

  /** After the last pattern every family is the orbit of some pattern. */
  lemma PlacedAreOrbits(table: seq<Grid>, orbits: seq<set<nat>>, starts: seq<nat>)
    requires Placed(table, orbits, starts, |table|)
    ensures |orbits| == |starts|
    ensures forall k :: 0 <= k < |orbits| ==> IsOrbit(table, orbits[k])
  {
    forall k | 0 <= k < |orbits|
      ensures IsOrbit(table, orbits[k])
    {
      var s := starts[k];
      assert 0 <= s < |table| && orbits[k] == Orbit(table, s);
    }
  }

  /** The families hold table positions only. */
  lemma PlacedInTable(table: seq<Grid>, orbits: seq<set<nat>>, starts: seq<nat>)
    requires Placed(table, orbits, starts, |table|)
    ensures forall k, i: nat :: 0 <= k < |orbits| && i in orbits[k] ==> i < |table|
  {
    forall k, i: nat | 0 <= k < |orbits| && i in orbits[k]
      ensures i < |table|
    {
      OrbitMembers(table, starts[k], i);
    }
  }

  /** The set is the family of each of its members, all of them table positions. */
  ghost predicate OrbitOfEach(table: seq<Grid>, o: set<nat>)
    requires IsTable(table)
  {
    forall i: nat :: i in o ==> i < |table| && o == Orbit(table, i)
  }

  /** With distinct entries, each family is the orbit of every one of its members. */
  lemma PlacedClosed(table: seq<Grid>, orbits: seq<set<nat>>, starts: seq<nat>)
    requires Placed(table, orbits, starts, |table|) && Distinct(table)
    ensures forall k :: 0 <= k < |orbits| ==> OrbitOfEach(table, orbits[k])
  {
    forall k | 0 <= k < |orbits|
      ensures OrbitOfEach(table, orbits[k])
    {
      forall i: nat | i in orbits[k]
        ensures i < |table| && orbits[k] == Orbit(table, i)
      {
        OrbitMembers(table, starts[k], i);
        OrbitOfMember(table, starts[k], i);
      }
    }
  }

  /**
   * One step of the orbit loop: a pattern not yet visited starts a new family, which is
   * added to the families and to the visited set; a visited one is skipped.
   */
  method PlaceOne(table: seq<Grid>, orbits: seq<set<nat>>, visited: set<nat>, ghost starts: seq<nat>, i: nat)
    returns (orbits': seq<set<nat>>, visited': set<nat>, ghost starts': seq<nat>)
    requires Placed(table, orbits, starts, i) && i < |table| && visited == Union(orbits)
    requires Distinct(table) ==> StartsAtFirsts(table, starts, i)
    ensures Placed(table, orbits', starts', i + 1) && visited' == Union(orbits')
    ensures Distinct(table) ==> StartsAtFirsts(table, starts', i + 1)
    ensures i in visited ==> orbits' == orbits
    ensures i !in visited ==> orbits' == orbits + [Orbit(table, i)]
  {
    if Distinct(table) {
      UnplacedIffFirst(table, orbits, starts, i);
    }
    if i !in visited {
      if Distinct(table) {
        StartsAppend(table, starts, i);
      }
      var orbit := CollectOrbit(table, i);
      PlaceNew(table, orbits, starts, i);
      visited' := visited + orbit;
      orbits' := orbits + [orbit];
      starts' := starts + [i];
    } else {
      if Distinct(table) {
        StartsKeep(table, starts, i);
      }
      SkipPlaced(table, orbits, starts, i);
      orbits', visited', starts' := orbits, visited, starts;
    }
  }

  /** What the orbit loop knows once every pattern has been looked at. */
  lemma PlacedSummary(table: seq<Grid>, orbits: seq<set<nat>>, starts: seq<nat>)
    requires Placed(table, orbits, starts, |table|)
    ensures forall k :: 0 <= k < |orbits| ==> IsOrbit(table, orbits[k])
    ensures forall k, i: nat :: 0 <= k < |orbits| && i in orbits[k] ==> i < |table|
  {
    PlacedAreOrbits(table, orbits, starts);
    PlacedInTable(table, orbits, starts);
  }

  /** In a table of distinct tilings the finished families partition the table. */
  lemma PlacedPartition(table: seq<Grid>, orbits: seq<set<nat>>, starts: seq<nat>)
    requires Placed(table, orbits, starts, |table|) && Distinct(table)
    ensures PairwiseDisjoint(orbits)
    ensures forall i: nat :: i < |table| ==> i in Union(orbits)
    ensures forall k :: 0 <= k < |orbits| ==> OrbitOfEach(table, orbits[k])
  {
    PlacedClosed(table, orbits, starts);
  }

  /**
   * A strictly increasing list of exactly the patterns below n that come first in their
   * family is as long as there are such patterns.
   */
  lemma {:induction false} CountedStarts(table: seq<Grid>, starts: seq<nat>, n: nat)
    requires IsTable(table) && n <= |table|
    requires forall k, l :: 0 <= k < l < |starts| ==> starts[k] < starts[l]
    requires forall k :: 0 <= k < |starts| ==> starts[k] < n
    requires forall j: nat :: j < n ==> (j in starts <==> FirstOfOrbit(table, j))
    ensures |starts| == FirstsBelow(table, n)
  {
    assert |starts| == 0 || starts[0] < n;
    if n > 0 {
      if FirstOfOrbit(table, n - 1) {
        assert (n - 1) in starts;
        var m := |starts| - 1;
        assert starts[m] == n - 1;
        var front := starts[..m];
        assert forall j: nat :: j < n - 1 ==> (j in front <==> j in starts);
        CountedStarts(table, front, n - 1);
        assert FirstsBelow(table, n) == FirstsBelow(table, n - 1) + 1;
      } else {
        CountedStarts(table, starts, n - 1);
        assert FirstsBelow(table, n) == FirstsBelow(table, n - 1);
      }
    }
  }

  /**
   * The orbit loop: walk the patterns in order, skip the ones already placed in a family,
   * and start a new family from each other one. With distinct entries the families found
   * are pairwise disjoint, cover the table, each is the orbit of every member, and there
   * are as many as there are patterns that come first in their family.
   */
  method ComputeOrbits(table: seq<Grid>) returns (orbits: seq<set<nat>>)
    requires IsTable(table)
    ensures forall k :: 0 <= k < |orbits| ==> IsOrbit(table, orbits[k])
    ensures forall k, i: nat :: 0 <= k < |orbits| && i in orbits[k] ==> i < |table|
    ensures Distinct(table) ==> PairwiseDisjoint(orbits)
    ensures Distinct(table) ==> forall i: nat :: i < |table| ==> i in Union(orbits)
    ensures Distinct(table) ==> forall k :: 0 <= k < |orbits| ==> OrbitOfEach(table, orbits[k])
    ensures Distinct(table) ==> |orbits| == FirstsBelow(table, |table|)
  {
    var visited: set<nat> := {};
    orbits := [];
    ghost var starts: seq<nat> := [];
    var i := 0;
    while i < |table|
      invariant Placed(table, orbits, starts, i)
      invariant visited == Union(orbits)
      invariant Distinct(table) ==> StartsAtFirsts(table, starts, i)
    {
      orbits, visited, starts := PlaceOne(table, orbits, visited, starts, i);
      i := i + 1;
    }
    PlacedSummary(table, orbits, starts);
    if Distinct(table) {
      PlacedPartition(table, orbits, starts);
      CountedStarts(table, starts, |table|);
    }
  }
}
