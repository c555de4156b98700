/**
 * `normalize`: relabel a grid's blocks in first-encounter order of the row-major scan,
 * so that two grids with the same domino structure get the same canonical form.
 */
module Canonical {
  import opened Board

  /** The result of a scan together with the scan's final `mapping` dict and `next_id`. */
  datatype Scan = Scan(out: seq<int>, mapping: map<int, int>, nextId: int)

  /**
   * Scans `s` left to right. A label not yet in `mapping` is given `nextId`, which then
   * grows by one; every label is replaced by the value it is mapped to.
   */
  function Relabel(s: seq<int>, mapping: map<int, int>, nextId: int): (res: Scan)
    ensures |res.out| == |s|
    decreases |s|
  {
    if |s| == 0 then Scan([], mapping, nextId)
    else
      var v := s[0];
      var m := if v in mapping then mapping else mapping[v := nextId];
      var n := if v in mapping then nextId else nextId + 1;
      var rest := Relabel(s[1..], m, n);
      Scan([m[v]] + rest.out, rest.mapping, rest.nextId)
  }

  /** No two labels share a value. */
  ghost predicate Injective(m: map<int, int>)
  {
    forall x, y :: x in m && y in m && m[x] == m[y] ==> x == y
  }

  /** Every assigned value is a label already handed out, i.e. below `nextId`. */
  ghost predicate Below(m: map<int, int>, nextId: int)
  {
    forall x :: x in m ==> 0 <= m[x] < nextId
  }

  /**
   * First-encounter (restricted-growth) form: labels are non-negative and a label k
   * appears only after every smaller label has appeared. In particular the first
   * label is 0 and the first occurrence of k + 1 comes after that of k.
   */
  predicate FirstEncounter(r: seq<int>)
  {
    && (forall i :: 0 <= i < |r| ==> 0 <= r[i])
    && (forall i, k :: 0 <= i < |r| && 0 <= k < r[i] ==> k in r[..i])
  }

  /**
   * A sequence is in first-encounter form when `firsts[k]` is a position holding label k,
   * no label k occurs before `firsts[k]`, and these positions increase with k.
   */
  lemma FirstEncounterFromFirsts(s: seq<int>, firsts: seq<int>)
    requires forall i :: 0 <= i < |s| ==> 0 <= s[i] < |firsts| && firsts[s[i]] <= i
    requires forall k :: 0 <= k < |firsts| ==> 0 <= firsts[k] < |s| && s[firsts[k]] == k
    requires forall k, l :: 0 <= k < l < |firsts| ==> firsts[k] < firsts[l]
    ensures FirstEncounter(s)
  {
    forall i, k | 0 <= i < |s| && 0 <= k < s[i]
      ensures k in s[..i]
    {
      assert s[..i][firsts[k]] == k;
    }
  }

  /** The scan keeps its mapping injective and replaces each label by its final value. */
  lemma {:induction false} RelabelAssigns(s: seq<int>, m: map<int, int>, n: int)
    requires Injective(m) && Below(m, n) && 0 <= n
    ensures var res := Relabel(s, m, n);
      && (forall x :: x in m ==> x in res.mapping && res.mapping[x] == m[x])
      && Injective(res.mapping)
      && Below(res.mapping, res.nextId)
      && forall i :: 0 <= i < |s| ==> s[i] in res.mapping && res.out[i] == res.mapping[s[i]]
    decreases |s|
  {
    if |s| > 0 {
      var v := s[0];
      var m1 := if v in m then m else m[v := n];
      var n1 := if v in m then n else n + 1;
      RelabelAssigns(s[1..], m1, n1);
      var res := Relabel(s, m, n);
      var tail := Relabel(s[1..], m1, n1);
      assert res.out == [m1[v]] + tail.out;
      forall i | 0 <= i < |s|
        ensures s[i] in res.mapping && res.out[i] == res.mapping[s[i]]
      {
        if i > 0 {
          assert s[i] == s[1..][i - 1];
        }
      }
    }
  }

  /**
   * Two scans over sequences with the same equality pattern, started from mappings that
   * agree on those sequences, emit the same labels.
   */
  lemma {:induction false} RelabelSimulates(s: seq<int>, t: seq<int>, m: map<int, int>, m': map<int, int>, n: int)
    requires SameKernel(s, t)
    requires forall i :: 0 <= i < |s| ==> (s[i] in m <==> t[i] in m')
    requires forall i :: 0 <= i < |s| && s[i] in m ==> m[s[i]] == m'[t[i]]
    ensures Relabel(s, m, n).out == Relabel(t, m', n).out
    decreases |s|
  {
    if |s| > 0 {
      var v, w := s[0], t[0];
      var m1 := if v in m then m else m[v := n];
      var m1' := if w in m' then m' else m'[w := n];
      var n1 := if v in m then n else n + 1;
      var s1, t1 := s[1..], t[1..];
      forall i | 0 <= i < |s1|
        ensures (s1[i] in m1 <==> t1[i] in m1')
        ensures s1[i] in m1 ==> m1[s1[i]] == m1'[t1[i]]
      {
        assert s1[i] == s[i + 1] && t1[i] == t[i + 1];
        assert s[i + 1] == s[0] <==> t[i + 1] == t[0];
      }
      RelabelSimulates(s1, t1, m1, m1', n1);
    }
  }

  /** The scan emits first-encounter labels, counting on from the labels already handed out. */
  lemma {:induction false} RelabelGrows(s: seq<int>, m: map<int, int>, n: int)
    requires Below(m, n) && 0 <= n
    ensures forall i :: 0 <= i < |s| ==> 0 <= Relabel(s, m, n).out[i]
    ensures forall i, k :: 0 <= i < |s| && 0 <= k < Relabel(s, m, n).out[i] ==>
      k < n || k in Relabel(s, m, n).out[..i]
    decreases |s|
  {
    if |s| > 0 {
      var v := s[0];
      var m1 := if v in m then m else m[v := n];
      var n1 := if v in m then n else n + 1;
      assert Below(m1, n1);
      RelabelGrows(s[1..], m1, n1);
      var o := Relabel(s, m, n).out;
      var tail := Relabel(s[1..], m1, n1).out;
      assert forall i :: 0 <= i < |tail| ==> 0 <= tail[i];
      assert o == [m1[v]] + tail;
      assert 0 <= o[0] < n1;
      assert n1 == n + 1 ==> o[0] == n;
      forall i | 0 <= i < |o|
        ensures 0 <= o[i]
      {
        if i > 0 {
          assert o[i] == tail[i - 1];
        }
      }
      forall i, k | 0 <= i < |o| && 0 <= k < o[i]
        ensures k < n || k in o[..i]
      {
        if i > 0 {
          assert o[i] == tail[i - 1];
          assert o[..i] == [o[0]] + tail[..i - 1];
          if k >= n && k !in tail[..i - 1] {
            assert k < n1;
            assert k == n && o[0] == n;
          }
        }
      }
    }
  }

  /** The labels 0 .. n-1, each mapped to itself. */
  function IdentityUpTo(n: nat): map<int, int>
  {
    map k | k in Upto(n) :: k
  }

  /** Labels that grow first-encounter style, counting on from the labels below n. */
  predicate GrowsFrom(s: seq<int>, n: int)
  {
    && (forall i :: 0 <= i < |s| ==> 0 <= s[i])
    && (forall i, k :: 0 <= i < |s| && 0 <= k < s[i] ==> k < n || k in s[..i])
  }

  /** A label at most n extends the identity on 0 .. n-1 to the identity on 0 .. n or stays. */
  lemma IdentityStep(n: nat, v: int)
    requires 0 <= v <= n
    ensures v in IdentityUpTo(n) <==> v < n
    ensures v !in IdentityUpTo(n) ==> IdentityUpTo(n)[v := n] == IdentityUpTo(n + 1)
  {
    if v == n {
      var m, m' := IdentityUpTo(n)[v := n], IdentityUpTo(n + 1);
      assert forall x :: x in m <==> x in m';
      assert forall x :: x in m ==> m[x] == m'[x];
    }
  }

  /** Dropping the first label of a growing sequence keeps it growing, from one label more. */
  lemma GrowsFromTail(s: seq<int>, n: int, n1: int)
    requires GrowsFrom(s, n) && |s| > 0 && n <= n1 && s[0] < n1
    ensures GrowsFrom(s[1..], n1)
  {
    var s1 := s[1..];
    forall i, k | 0 <= i < |s1| && 0 <= k < s1[i]
      ensures k < n1 || k in s1[..i]
    {
      assert s1[i] == s[i + 1];
      if k >= n {
        assert k in s[..i + 1];
        var j :| 0 <= j < i + 1 && s[j] == k;
        if j > 0 {
          assert s1[j - 1] == k;
        }
      }
    }
  }

  /** A scan over labels that already grow first-encounter style changes nothing. */
  lemma {:induction false} RelabelKeepsFirstEncounter(s: seq<int>, n: nat)
    requires GrowsFrom(s, n)
    ensures Relabel(s, IdentityUpTo(n), n).out == s
    decreases |s|
  {
    if |s| > 0 {
      var v := s[0];
      assert n !in s[..0];
      assert v <= n;
      IdentityStep(n, v);
      var n1 := if v < n then n else n + 1;
      GrowsFromTail(s, n, n1);
      RelabelKeepsFirstEncounter(s[1..], n1);
      assert s == [v] + s[1..];
    }
  }

  /**
   * `normalize` on the row-major label sequence. The result has the input's equality
   * pattern (the same blocks) and is in first-encounter form.
   */
  function Canon(s: seq<int>): (r: seq<int>)
    ensures |r| == |s|
  {
    Relabel(s, map[], 0).out
  }

  /** The canonical form has the input's equality pattern and is in first-encounter form. */
  lemma CanonSpec(s: seq<int>)
    ensures SameKernel(Canon(s), s)
    ensures FirstEncounter(Canon(s))
  {
    RelabelAssigns(s, map[], 0);
    RelabelGrows(s, map[], 0);
  }

  /** Sequences with the same equality pattern have the same canonical form. */
  lemma CanonRespectsKernel(s: seq<int>, t: seq<int>)
    requires SameKernel(s, t)
    ensures Canon(s) == Canon(t)
  {
    RelabelSimulates(s, t, map[], map[], 0);
  }

  /** A sequence already in first-encounter form is its own canonical form. */
  lemma CanonFixesFirstEncounter(s: seq<int>)
    requires FirstEncounter(s)
    ensures Canon(s) == s
  {
    assert IdentityUpTo(0) == map[];
    RelabelKeepsFirstEncounter(s, 0);
  }

  /** Canonical forms are equal exactly when the equality patterns are. */
  lemma CanonEqualIff(s: seq<int>, t: seq<int>)
    ensures Canon(s) == Canon(t) <==> SameKernel(s, t)
  {
    CanonSpec(s);
    CanonSpec(t);
    if SameKernel(s, t) {
      CanonRespectsKernel(s, t);
    }
  }

  /**
   * The canonical form is characterised without the scan: it is the one sequence in
   * first-encounter form with the input's equality pattern.
   */
  lemma CanonCharacterization(s: seq<int>, r: seq<int>)
    ensures r == Canon(s) <==> FirstEncounter(r) && SameKernel(r, s)
  {
    CanonSpec(s);
    if FirstEncounter(r) && SameKernel(r, s) {
      CanonFixesFirstEncounter(r);
      CanonRespectsKernel(r, s);
    }
  }

  /** Normalising twice is normalising once. */
  lemma CanonIdempotent(s: seq<int>)
    ensures Canon(Canon(s)) == Canon(s)
  {
    CanonSpec(s);
    CanonFixesFirstEncounter(Canon(s));
  }

  /** Renames every label through f. */
  function MapLabels(f: int -> int, s: seq<int>): (r: seq<int>)
    ensures |r| == |s| && forall i :: 0 <= i < |s| ==> r[i] == f(s[i])
  {
    seq(|s|, i requires 0 <= i < |s| => f(s[i]))
  }

  /** Renaming labels injectively does not change the canonical form. */
  lemma CanonRelabelInvariant(f: int -> int, s: seq<int>)
    requires forall i, j :: 0 <= i < |s| && 0 <= j < |s| && f(s[i]) == f(s[j]) ==> s[i] == s[j]
    ensures Canon(MapLabels(f, s)) == Canon(s)
  {
    CanonRespectsKernel(MapLabels(f, s), s);
  }

  /** The labels among the first i entries. */
  function Seen(r: seq<int>, i: int): set<int>
    requires 0 <= i <= |r|
  {
    set x | x in r[..i]
  }

  /** The integers 0 .. n-1. */
  function Upto(n: nat): (s: set<int>)
    ensures |s| == n
    ensures forall k :: k in s <==> 0 <= k < n
  {
    if n == 0 then {} else
      var s := Upto(n - 1);
      assert n - 1 !in s;
      s + {n - 1}
  }

  /** An entry of a first-encounter sequence is at most any label missing before it. */
  lemma NoSkippedLabel(r: seq<int>, i: int, c: int)
    requires FirstEncounter(r) && 0 <= i < |r| && 0 <= c && c !in r[..i]
    ensures r[i] <= c
  {
  }

  lemma SeenStep(r: seq<int>, i: int)
    requires 0 < i <= |r|
    ensures Seen(r, i) == Seen(r, i - 1) + {r[i - 1]}
  {
    assert r[..i] == r[..i - 1] + [r[i - 1]];
  }

  /** In first-encounter form the labels seen so far are exactly 0 .. c-1, c their number. */
  lemma {:induction false} SeenIsInitialSegment(r: seq<int>, i: int)
    requires FirstEncounter(r) && 0 <= i <= |r|
    ensures Seen(r, i) == Upto(|Seen(r, i)|)
  {
    if i == 0 {
      assert Seen(r, 0) == {};
    } else {
      SeenIsInitialSegment(r, i - 1);
      var c := |Seen(r, i - 1)|;
      NextSeen(r, i, c);
      if Seen(r, i) == Upto(c) {
        assert |Seen(r, i)| == c;
      } else {
        assert |Seen(r, i)| == c + 1;
      }
    }
  }

  /** One step of `SeenIsInitialSegment`: the next entry is old or exactly the next label. */
  lemma NextSeen(r: seq<int>, i: int, c: nat)
    requires FirstEncounter(r) && 0 < i <= |r|
    requires Seen(r, i - 1) == Upto(c)
    ensures Seen(r, i) == Upto(c) || Seen(r, i) == Upto(c + 1)
  {
    SeenStep(r, i);
    assert c !in Seen(r, i - 1);
    assert c !in r[..i - 1];
    NoSkippedLabel(r, i - 1, c);
    if r[i - 1] < c {
      assert r[i - 1] in Upto(c);
    }
  }

  /**
   * Each entry is at most the number of distinct labels before it, and equal to that
   * number exactly when it is a label not seen before.
   */
  lemma FirstEncounterBound(r: seq<int>, i: int)
    requires FirstEncounter(r) && 0 <= i < |r|
    ensures r[i] <= |Seen(r, i)|
    ensures r[i] == |Seen(r, i)| <==> r[i] !in Seen(r, i)
  {
    SeenIsInitialSegment(r, i);
    var c := |Seen(r, i)|;
    assert c !in Seen(r, i);
    assert c !in r[..i];
  }

  /** Every entry of a first-encounter sequence is at most the number of distinct labels before it. */
  lemma FirstEncounterBounds(r: seq<int>)
    requires FirstEncounter(r)
    ensures forall i :: 0 <= i < |r| ==> r[i] <= |Seen(r, i)|
  {
    forall i | 0 <= i < |r|
      ensures r[i] <= |Seen(r, i)|
    {
      FirstEncounterBound(r, i);
    }
  }

  /**
   * `normalize` on a grid: the rows are read in order with one shared mapping, so this is
   * the canonical form of the row-major sequence, cut back into rows (`NormalizeGrid` runs
   * the nested loop itself). The result has the grid's domino structure, its labels are in
   * first-encounter reading order, so that each is at most the number of distinct labels
   * read before it, and the top-left cell always gets label 0.
   */
  function Normalize(g: Grid): (r: Grid)
    requires IsGrid(g)
    ensures IsGrid(r) && Flatten(r) == Canon(Flatten(g))
    ensures SameShape(r, g)
    ensures FirstEncounter(Flatten(r))
    ensures forall i :: 0 <= i < N * N ==> Flatten(r)[i] <= |Seen(Flatten(r), i)|
    ensures At(r, Cell(0, 0)) == 0
  {
    var s := Canon(Flatten(g));
    FlattenUnflatten(s);
    CanonSpec(Flatten(g));
    SameShapeIffKernel(Unflatten(s), g);
    FirstEncounterBounds(s);
    assert 0 !in s[..0];
    Unflatten(s)
  }

  /** Scanning a + b is scanning a, then scanning b from the state a leaves behind. */
  lemma {:induction false} RelabelSplit(a: seq<int>, b: seq<int>, m: map<int, int>, n: int)
    ensures var ra := Relabel(a, m, n);
      var rb := Relabel(b, ra.mapping, ra.nextId);
      Relabel(a + b, m, n) == Scan(ra.out + rb.out, rb.mapping, rb.nextId)
    decreases |a|
  {
    if |a| == 0 {
      assert a + b == b;
    } else {
      var v := a[0];
      var m1 := if v in m then m else m[v := n];
      var n1 := if v in m then n else n + 1;
      assert (a + b)[1..] == a[1..] + b;
      RelabelSplit(a[1..], b, m1, n1);
      var ra1 := Relabel(a[1..], m1, n1);
      var rb := Relabel(b, ra1.mapping, ra1.nextId);
      assert [m1[v]] + (ra1.out + rb.out) == ([m1[v]] + ra1.out) + rb.out;
    }
  }

  /** The first r + 1 rows in reading order: the first r rows, then row r. */
  lemma FlattenPrefix(g: Grid, r: int)
    requires IsGrid(g) && 0 <= r < N
    ensures Flatten(g)[..N * (r + 1)] == Flatten(g)[..N * r] + g[r]
  {
    var s := Flatten(g);
    FlattenAt(g);
    forall k | 0 <= k < N * (r + 1)
      ensures s[k] == (s[..N * r] + g[r])[k]
    {
      if k >= N * r {
        assert s[k] == At(g, Cell(r, k - N * r));
      }
    }
  }

  /**
   * The inner loop of `normalize` over the values of one row: a value not yet in
   * `mapping` gets `next_id`, which then grows by one, and the new row collects the
   * mapped values. It performs exactly the scan `Relabel` of the row.
   */
  method RelabelRow(row: seq<int>, mapping0: map<int, int>, nextId0: int)
      returns (newRow: seq<int>, mapping: map<int, int>, nextId: int)
    ensures Relabel(row, mapping0, nextId0) == Scan(newRow, mapping, nextId)
  {
    newRow, mapping, nextId := [], mapping0, nextId0;
    for c := 0 to |row|
      invariant Relabel(row[..c], mapping0, nextId0) == Scan(newRow, mapping, nextId)
    {
      var v := row[c];
      assert row[..c + 1] == row[..c] + [v];
      RelabelSplit(row[..c], [v], mapping0, nextId0);
      if v !in mapping {
        mapping := mapping[v := nextId];
        nextId := nextId + 1;
      }
      newRow := newRow + [mapping[v]];
    }
    assert row[..|row|] == row;
  }

  /**
   * `normalize` as the program runs it: rows in order, values in order within a row, one
   * `mapping` dict and one `next_id` counter shared by the whole scan. The rows it builds
   * are exactly `Normalize(g)`.
   */
  method NormalizeGrid(g: Grid) returns (result: Grid)
    requires IsGrid(g)
    ensures result == Normalize(g)
  {
    var mapping: map<int, int> := map[];
    var nextId := 0;
    ghost var s := Flatten(g);
    ghost var emitted: seq<int> := [];
    result := [];
    for r := 0 to N
      invariant |result| == r && forall r' :: 0 <= r' < r ==> |result[r']| == N
      invariant Relabel(s[..N * r], map[], 0) == Scan(emitted, mapping, nextId)
      invariant forall r', c' :: 0 <= r' < r && 0 <= c' < N ==> result[r'][c'] == emitted[N * r' + c']
    {
      var newRow;
      newRow, mapping, nextId := RelabelRow(g[r], mapping, nextId);
      FlattenPrefix(g, r);
      RelabelSplit(s[..N * r], g[r], map[], 0);
      emitted := emitted + newRow;
      result := result + [newRow];
    }
    assert s[..N * N] == s;
    RowsOfCanon(g, result);
  }

  /** Rows that hold the canonical labels in reading order are the normal form. */
  lemma RowsOfCanon(g: Grid, rows: Grid)
    requires IsGrid(g) && IsGrid(rows)
    requires forall r, c :: 0 <= r < N && 0 <= c < N ==> rows[r][c] == Canon(Flatten(g))[N * r + c]
    ensures rows == Normalize(g)
  {
    var norm := Normalize(g);
    FlattenAt(norm);
    forall p | OnBoard(p)
      ensures At(rows, p) == At(norm, p)
    {
    }
    GridExt(rows, norm);
  }

  /** Two grids normalise alike exactly when they have the same domino structure. */
  lemma NormalizeEqualIff(g: Grid, h: Grid)
    requires IsGrid(g) && IsGrid(h)
    ensures Normalize(g) == Normalize(h) <==> SameShape(g, h)
  {
    SameShapeIffKernel(g, h);
    CanonEqualIff(Flatten(g), Flatten(h));
    if Normalize(g) == Normalize(h) {
      assert Canon(Flatten(g)) == Canon(Flatten(h));
    }
  }

  /** A grid already labelled in first-encounter order is left unchanged. */
  lemma NormalizeFixesFirstEncounter(g: Grid)
    requires IsGrid(g) && FirstEncounter(Flatten(g))
    ensures Normalize(g) == g
  {
    CanonFixesFirstEncounter(Flatten(g));
    UnflattenFlatten(g);
  }

  /** Normalising twice is normalising once. */
  lemma NormalizeIdempotent(g: Grid)
    requires IsGrid(g)
    ensures Normalize(Normalize(g)) == Normalize(g)
  {
    NormalizeFixesFirstEncounter(Normalize(g));
  }

  /** Renames every label of a grid through f. */
  function MapGrid(f: int -> int, g: Grid): (h: Grid)
    requires IsGrid(g)
    ensures IsGrid(h) && forall p :: OnBoard(p) ==> At(h, p) == f(At(g, p))
  {
    seq(N, r requires 0 <= r < N => seq(N, c requires 0 <= c < N => f(g[r][c])))
  }

  /** Renaming the blocks of a grid injectively does not change its normal form. */
  lemma NormalizeRelabelInvariant(f: int -> int, g: Grid)
    requires IsGrid(g)
    requires forall p, q :: OnBoard(p) && OnBoard(q) && f(At(g, p)) == f(At(g, q)) ==> At(g, p) == At(g, q)
    ensures Normalize(MapGrid(f, g)) == Normalize(g)
  {
    NormalizeEqualIff(MapGrid(f, g), g);
  }
}
