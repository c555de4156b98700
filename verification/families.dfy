/**
 * The orbit loop run on `PATTERNS` itself: its 36 tilings have pairwise different domino
 * structures, the lookup in `NORM_PATTERNS` finds every transformed tiling, and the
 * families the loop collects partition the table.
 */
module Families {
  import opened Board
  import opened Canonical
  import opened Dihedral
  import opened Symmetry
  import opened Tilings

  /** `MovedAt` at the four positions of row 0. */
  predicate MovedRow0(s: seq<int>, s2: seq<int>, t: Sym, perm: seq<int>, back: seq<int>)
    requires |s| == N * N && |s2| == N * N
  {
    && MovedAt(s, s2, t, perm, back, 0) && MovedAt(s, s2, t, perm, back, 1)
    && MovedAt(s, s2, t, perm, back, 2) && MovedAt(s, s2, t, perm, back, 3)
  }

  /** `MovedAt` at the four positions of row 1. */
  predicate MovedRow1(s: seq<int>, s2: seq<int>, t: Sym, perm: seq<int>, back: seq<int>)
    requires |s| == N * N && |s2| == N * N
  {
    && MovedAt(s, s2, t, perm, back, 4) && MovedAt(s, s2, t, perm, back, 5)
    && MovedAt(s, s2, t, perm, back, 6) && MovedAt(s, s2, t, perm, back, 7)
  }

  /** `MovedAt` at the four positions of row 2. */
  predicate MovedRow2(s: seq<int>, s2: seq<int>, t: Sym, perm: seq<int>, back: seq<int>)
    requires |s| == N * N && |s2| == N * N
  {
    && MovedAt(s, s2, t, perm, back, 8) && MovedAt(s, s2, t, perm, back, 9)
    && MovedAt(s, s2, t, perm, back, 10) && MovedAt(s, s2, t, perm, back, 11)
  }

  /** `MovedAt` at the four positions of row 3. */
  predicate MovedRow3(s: seq<int>, s2: seq<int>, t: Sym, perm: seq<int>, back: seq<int>)
    requires |s| == N * N && |s2| == N * N
  {
    && MovedAt(s, s2, t, perm, back, 12) && MovedAt(s, s2, t, perm, back, 13)
    && MovedAt(s, s2, t, perm, back, 14) && MovedAt(s, s2, t, perm, back, 15)
  }

  /** `MovedAt` at each of the sixteen positions. */
  predicate MovedEverywhere(s: seq<int>, s2: seq<int>, t: Sym, perm: seq<int>, back: seq<int>)
    requires |s| == N * N && |s2| == N * N
  {
    && MovedRow0(s, s2, t, perm, back) && MovedRow1(s, s2, t, perm, back)
    && MovedRow2(s, s2, t, perm, back) && MovedRow3(s, s2, t, perm, back)
  }

  /** What `MovedEverywhere` lists for the sixteen positions holds at every position. */
  lemma MovedAtEveryPosition(s: seq<int>, s2: seq<int>, t: Sym, perm: seq<int>, back: seq<int>)
    requires |s| == N * N && |s2| == N * N && MovedEverywhere(s, s2, t, perm, back)
    ensures forall k :: 0 <= k < N * N ==> MovedAt(s, s2, t, perm, back, k)
  {
    forall k | 0 <= k < N * N
      ensures MovedAt(s, s2, t, perm, back, k)
    {
      assert k == 0 || k == 1 || k == 2 || k == 3 || k == 4 || k == 5 || k == 6 || k == 7
          || k == 8 || k == 9 || k == 10 || k == 11 || k == 12 || k == 13 || k == 14 || k == 15;
    }
  }

  /**
   * Entry i moved by t has the domino structure of entry j when t carries layout i onto
   * layout j up to a reversible renaming of the blocks.
   */
  lemma MovedByRenaming(table: seq<Grid>, i: int, j: int, t: Sym, perm: seq<int>, back: seq<int>)
    requires HasLayouts(table) && 0 <= i < 36 && 0 <= j < 36
    requires MovedEverywhere(Layout(i), Layout(j), t, perm, back)
    ensures SameShape(Transform(table[i], t), table[j])
  {
    var s, s2 := Layout(i), Layout(j);
    MovedAtEveryPosition(s, s2, t, perm, back);
    var g, h := table[i], table[j];
    FlattenAt(g);
    FlattenAt(h);
    forall p | OnBoard(p)
      ensures MovedAt(s, s2, t, perm, back, Index(p))
      ensures At(Transform(g, t), p) == s[Source(t, Index(p))] && At(h, p) == s2[Index(p)]
    {
      IndexInRange(p);
      TransformAt(g, t, p);
      SourceSpec(t, p);
      IndexInRange(Move(Inverse(t), N, p));
    }
  }

  /** P1 is written in first-encounter order: its labels 0 .. 7 first appear at positions [0, 2, 4, 6, 8, 10, 12, 14]. */
  lemma FirstEncounterP1()
    ensures FirstEncounter(Layout(0))
  {
    FirstEncounterFromFirsts(Layout(0), [0, 2, 4, 6, 8, 10, 12, 14]);
  }

  /** P2 is written in first-encounter order: its labels 0 .. 7 first appear at positions [0, 2, 4, 6, 8, 10, 11, 12]. */
  lemma FirstEncounterP2()
    ensures FirstEncounter(Layout(1))
  {
    FirstEncounterFromFirsts(Layout(1), [0, 2, 4, 6, 8, 10, 11, 12]);
  }

  /** P3 is written in first-encounter order: its labels 0 .. 7 first appear at positions [0, 2, 4, 6, 8, 9, 11, 13]. */
  lemma FirstEncounterP3()
    ensures FirstEncounter(Layout(2))
  {
    FirstEncounterFromFirsts(Layout(2), [0, 2, 4, 6, 8, 9, 11, 13]);
  }

  /** P4 is written in first-encounter order: its labels 0 .. 7 first appear at positions [0, 2, 4, 6, 8, 9, 10, 14]. */
  lemma FirstEncounterP4()
    ensures FirstEncounter(Layout(3))
  {
    FirstEncounterFromFirsts(Layout(3), [0, 2, 4, 6, 8, 9, 10, 14]);
  }

  /** P5 is written in first-encounter order: its labels 0 .. 7 first appear at positions [0, 2, 4, 6, 8, 9, 10, 11]. */
  lemma FirstEncounterP5()
    ensures FirstEncounter(Layout(4))
  {
    FirstEncounterFromFirsts(Layout(4), [0, 2, 4, 6, 8, 9, 10, 11]);
  }

  /** P6 is written in first-encounter order: its labels 0 .. 7 first appear at positions [0, 2, 4, 6, 7, 8, 12, 14]. */
  lemma FirstEncounterP6()
    ensures FirstEncounter(Layout(5))
  {
    FirstEncounterFromFirsts(Layout(5), [0, 2, 4, 6, 7, 8, 12, 14]);
  }

  /** P7 is written in first-encounter order: its labels 0 .. 7 first appear at positions [0, 2, 4, 6, 7, 8, 9, 14]. */
  lemma FirstEncounterP7()
    ensures FirstEncounter(Layout(6))
  {
    FirstEncounterFromFirsts(Layout(6), [0, 2, 4, 6, 7, 8, 9, 14]);
  }

  /** P8 is written in first-encounter order: its labels 0 .. 7 first appear at positions [0, 2, 4, 5, 7, 9, 12, 14]. */
  lemma FirstEncounterP8()
    ensures FirstEncounter(Layout(7))
  {
    FirstEncounterFromFirsts(Layout(7), [0, 2, 4, 5, 7, 9, 12, 14]);
  }

  /** P9 is written in first-encounter order: its labels 0 .. 7 first appear at positions [0, 2, 4, 5, 6, 10, 12, 14]. */
  lemma FirstEncounterP9()
    ensures FirstEncounter(Layout(8))
  {
    FirstEncounterFromFirsts(Layout(8), [0, 2, 4, 5, 6, 10, 12, 14]);
  }

  /** P10 is written in first-encounter order: its labels 0 .. 7 first appear at positions [0, 2, 4, 5, 6, 10, 11, 12]. */
  lemma FirstEncounterP10()
    ensures FirstEncounter(Layout(9))
  {
    FirstEncounterFromFirsts(Layout(9), [0, 2, 4, 5, 6, 10, 11, 12]);
  }

  /** P11 is written in first-encounter order: its labels 0 .. 7 first appear at positions [0, 2, 4, 5, 6, 7, 12, 14]. */
  lemma FirstEncounterP11()
    ensures FirstEncounter(Layout(10))
  {
    FirstEncounterFromFirsts(Layout(10), [0, 2, 4, 5, 6, 7, 12, 14]);
  }

  /** P12 is written in first-encounter order: its labels 0 .. 7 first appear at positions [0, 2, 3, 4, 8, 10, 12, 14]. */
  lemma FirstEncounterP12()
    ensures FirstEncounter(Layout(11))
  {
    FirstEncounterFromFirsts(Layout(11), [0, 2, 3, 4, 8, 10, 12, 14]);
  }

  /** P13 is written in first-encounter order: its labels 0 .. 7 first appear at positions [0, 2, 3, 4, 8, 10, 11, 12]. */
  lemma FirstEncounterP13()
    ensures FirstEncounter(Layout(12))
  {
    FirstEncounterFromFirsts(Layout(12), [0, 2, 3, 4, 8, 10, 11, 12]);
  }

  /** P14 is written in first-encounter order: its labels 0 .. 7 first appear at positions [0, 2, 3, 4, 8, 9, 11, 13]. */
  lemma FirstEncounterP14()
    ensures FirstEncounter(Layout(13))
  {
    FirstEncounterFromFirsts(Layout(13), [0, 2, 3, 4, 8, 9, 11, 13]);
  }

  /** P15 is written in first-encounter order: its labels 0 .. 7 first appear at positions [0, 2, 3, 4, 8, 9, 10, 14]. */
  lemma FirstEncounterP15()
    ensures FirstEncounter(Layout(14))
  {
    FirstEncounterFromFirsts(Layout(14), [0, 2, 3, 4, 8, 9, 10, 14]);
  }

  /** P16 is written in first-encounter order: its labels 0 .. 7 first appear at positions [0, 2, 3, 4, 8, 9, 10, 11]. */
  lemma FirstEncounterP16()
    ensures FirstEncounter(Layout(15))
  {
    FirstEncounterFromFirsts(Layout(15), [0, 2, 3, 4, 8, 9, 10, 11]);
  }

  /** P17 is written in first-encounter order: its labels 0 .. 7 first appear at positions [0, 2, 3, 4, 5, 10, 12, 14]. */
  lemma FirstEncounterP17()
    ensures FirstEncounter(Layout(16))
  {
    FirstEncounterFromFirsts(Layout(16), [0, 2, 3, 4, 5, 10, 12, 14]);
  }

  /** P18 is written in first-encounter order: its labels 0 .. 7 first appear at positions [0, 2, 3, 4, 5, 10, 11, 12]. */
  lemma FirstEncounterP18()
    ensures FirstEncounter(Layout(17))
  {
    FirstEncounterFromFirsts(Layout(17), [0, 2, 3, 4, 5, 10, 11, 12]);
  }

  /** P19 is written in first-encounter order: its labels 0 .. 7 first appear at positions [0, 1, 3, 5, 8, 10, 12, 14]. */
  lemma FirstEncounterP19()
    ensures FirstEncounter(Layout(18))
  {
    FirstEncounterFromFirsts(Layout(18), [0, 1, 3, 5, 8, 10, 12, 14]);
  }

  /** P20 is written in first-encounter order: its labels 0 .. 7 first appear at positions [0, 1, 3, 5, 8, 10, 11, 12]. */
  lemma FirstEncounterP20()
    ensures FirstEncounter(Layout(19))
  {
    FirstEncounterFromFirsts(Layout(19), [0, 1, 3, 5, 8, 10, 11, 12]);
  }

  /** P21 is written in first-encounter order: its labels 0 .. 7 first appear at positions [0, 1, 3, 5, 8, 9, 11, 13]. */
  lemma FirstEncounterP21()
    ensures FirstEncounter(Layout(20))
  {
    FirstEncounterFromFirsts(Layout(20), [0, 1, 3, 5, 8, 9, 11, 13]);
  }

  /** P22 is written in first-encounter order: its labels 0 .. 7 first appear at positions [0, 1, 3, 5, 8, 9, 10, 14]. */
  lemma FirstEncounterP22()
    ensures FirstEncounter(Layout(21))
  {
    FirstEncounterFromFirsts(Layout(21), [0, 1, 3, 5, 8, 9, 10, 14]);
  }

  /** P23 is written in first-encounter order: its labels 0 .. 7 first appear at positions [0, 1, 3, 5, 8, 9, 10, 11]. */
  lemma FirstEncounterP23()
    ensures FirstEncounter(Layout(22))
  {
    FirstEncounterFromFirsts(Layout(22), [0, 1, 3, 5, 8, 9, 10, 11]);
  }

  /** P24 is written in first-encounter order: its labels 0 .. 7 first appear at positions [0, 1, 3, 5, 6, 8, 11, 13]. */
  lemma FirstEncounterP24()
    ensures FirstEncounter(Layout(23))
  {
    FirstEncounterFromFirsts(Layout(23), [0, 1, 3, 5, 6, 8, 11, 13]);
  }

  /** P25 is written in first-encounter order: its labels 0 .. 7 first appear at positions [0, 1, 2, 6, 8, 10, 12, 14]. */
  lemma FirstEncounterP25()
    ensures FirstEncounter(Layout(24))
  {
    FirstEncounterFromFirsts(Layout(24), [0, 1, 2, 6, 8, 10, 12, 14]);
  }

  /** P26 is written in first-encounter order: its labels 0 .. 7 first appear at positions [0, 1, 2, 6, 8, 10, 11, 12]. */
  lemma FirstEncounterP26()
    ensures FirstEncounter(Layout(25))
  {
    FirstEncounterFromFirsts(Layout(25), [0, 1, 2, 6, 8, 10, 11, 12]);
  }

  /** P27 is written in first-encounter order: its labels 0 .. 7 first appear at positions [0, 1, 2, 6, 8, 9, 11, 13]. */
  lemma FirstEncounterP27()
    ensures FirstEncounter(Layout(26))
  {
    FirstEncounterFromFirsts(Layout(26), [0, 1, 2, 6, 8, 9, 11, 13]);
  }

  /** P28 is written in first-encounter order: its labels 0 .. 7 first appear at positions [0, 1, 2, 6, 8, 9, 10, 14]. */
  lemma FirstEncounterP28()
    ensures FirstEncounter(Layout(27))
  {
    FirstEncounterFromFirsts(Layout(27), [0, 1, 2, 6, 8, 9, 10, 14]);
  }

  /** P29 is written in first-encounter order: its labels 0 .. 7 first appear at positions [0, 1, 2, 6, 8, 9, 10, 11]. */
  lemma FirstEncounterP29()
    ensures FirstEncounter(Layout(28))
  {
    FirstEncounterFromFirsts(Layout(28), [0, 1, 2, 6, 8, 9, 10, 11]);
  }

  /** P30 is written in first-encounter order: its labels 0 .. 7 first appear at positions [0, 1, 2, 6, 7, 8, 12, 14]. */
  lemma FirstEncounterP30()
    ensures FirstEncounter(Layout(29))
  {
    FirstEncounterFromFirsts(Layout(29), [0, 1, 2, 6, 7, 8, 12, 14]);
  }

  /** P31 is written in first-encounter order: its labels 0 .. 7 first appear at positions [0, 1, 2, 6, 7, 8, 9, 14]. */
  lemma FirstEncounterP31()
    ensures FirstEncounter(Layout(30))
  {
    FirstEncounterFromFirsts(Layout(30), [0, 1, 2, 6, 7, 8, 9, 14]);
  }

  /** P32 is written in first-encounter order: its labels 0 .. 7 first appear at positions [0, 1, 2, 3, 8, 10, 12, 14]. */
  lemma FirstEncounterP32()
    ensures FirstEncounter(Layout(31))
  {
    FirstEncounterFromFirsts(Layout(31), [0, 1, 2, 3, 8, 10, 12, 14]);
  }

  /** P33 is written in first-encounter order: its labels 0 .. 7 first appear at positions [0, 1, 2, 3, 8, 10, 11, 12]. */
  lemma FirstEncounterP33()
    ensures FirstEncounter(Layout(32))
  {
    FirstEncounterFromFirsts(Layout(32), [0, 1, 2, 3, 8, 10, 11, 12]);
  }

  /** P34 is written in first-encounter order: its labels 0 .. 7 first appear at positions [0, 1, 2, 3, 8, 9, 11, 13]. */
  lemma FirstEncounterP34()
    ensures FirstEncounter(Layout(33))
  {
    FirstEncounterFromFirsts(Layout(33), [0, 1, 2, 3, 8, 9, 11, 13]);
  }

  /** P35 is written in first-encounter order: its labels 0 .. 7 first appear at positions [0, 1, 2, 3, 8, 9, 10, 14]. */
  lemma FirstEncounterP35()
    ensures FirstEncounter(Layout(34))
  {
    FirstEncounterFromFirsts(Layout(34), [0, 1, 2, 3, 8, 9, 10, 14]);
  }

  /** P36 is written in first-encounter order: its labels 0 .. 7 first appear at positions [0, 1, 2, 3, 8, 9, 10, 11]. */
  lemma FirstEncounterP36()
    ensures FirstEncounter(Layout(35))
  {
    FirstEncounterFromFirsts(Layout(35), [0, 1, 2, 3, 8, 9, 10, 11]);
  }

  /** Every tiling of the table is written in first-encounter order. */
  lemma LayoutIsNormal(i: int)
    requires 0 <= i < 36
    ensures FirstEncounter(Layout(i))
  {
    if i == 0 {
      FirstEncounterP1();
    } else if i == 1 {
      FirstEncounterP2();
    } else if i == 2 {
      FirstEncounterP3();
    } else if i == 3 {
      FirstEncounterP4();
    } else if i == 4 {
      FirstEncounterP5();
    } else if i == 5 {
      FirstEncounterP6();
    } else if i == 6 {
      FirstEncounterP7();
    } else if i == 7 {
      FirstEncounterP8();
    } else if i == 8 {
      FirstEncounterP9();
    } else if i == 9 {
      FirstEncounterP10();
    } else if i == 10 {
      FirstEncounterP11();
    } else if i == 11 {
      FirstEncounterP12();
    } else if i == 12 {
      FirstEncounterP13();
    } else if i == 13 {
      FirstEncounterP14();
    } else if i == 14 {
      FirstEncounterP15();
    } else if i == 15 {
      FirstEncounterP16();
    } else if i == 16 {
      FirstEncounterP17();
    } else if i == 17 {
      FirstEncounterP18();
    } else if i == 18 {
      FirstEncounterP19();
    } else if i == 19 {
      FirstEncounterP20();
    } else if i == 20 {
      FirstEncounterP21();
    } else if i == 21 {
      FirstEncounterP22();
    } else if i == 22 {
      FirstEncounterP23();
    } else if i == 23 {
      FirstEncounterP24();
    } else if i == 24 {
      FirstEncounterP25();
    } else if i == 25 {
      FirstEncounterP26();
    } else if i == 26 {
      FirstEncounterP27();
    } else if i == 27 {
      FirstEncounterP28();
    } else if i == 28 {
      FirstEncounterP29();
    } else if i == 29 {
      FirstEncounterP30();
    } else if i == 30 {
      FirstEncounterP31();
    } else if i == 31 {
      FirstEncounterP32();
    } else if i == 32 {
      FirstEncounterP33();
    } else if i == 33 {
      FirstEncounterP34();
    } else if i == 34 {
      FirstEncounterP35();
    } else {
      FirstEncounterP36();
    }
  }

  /** The 36 layouts are pairwise different. */
  lemma LayoutsDiffer(i: int, j: int)
    requires 0 <= i < 36 && 0 <= j < 36 && i != j
    ensures Layout(i) != Layout(j)
  {
    var a, b := if i < j then i else j, if i < j then j else i;
    if a < 9 {
      LayoutsDifferFrom0(a, b);
    } else if a < 18 {
      LayoutsDifferFrom9(a, b);
    } else if a < 27 {
      LayoutsDifferFrom18(a, b);
    } else {
      LayoutsDifferFrom27(a, b);
    }
  }

  lemma LayoutsDifferFrom0(i: int, j: int)
    requires 0 <= i < 9 && i < j < 36
    ensures Layout(i) != Layout(j)
  {
  }

  lemma LayoutsDifferFrom9(i: int, j: int)
    requires 9 <= i < 18 && i < j < 36
    ensures Layout(i) != Layout(j)
  {
  }

  lemma LayoutsDifferFrom18(i: int, j: int)
    requires 18 <= i < 27 && i < j < 36
    ensures Layout(i) != Layout(j)
  {
  }

  lemma LayoutsDifferFrom27(i: int, j: int)
    requires 27 <= i < 36 && i < j < 36
    ensures Layout(i) != Layout(j)
  {
  }

  /** `NORM_PATTERNS` equals `PATTERNS`: every entry is already its own normal form. */
  lemma NormTableIsTable(table: seq<Grid>)
    requires HasLayouts(table)
    ensures NormTable(table) == table
  {
    NormTableAt(table);
    forall i | 0 <= i < 36
      ensures NormTable(table)[i] == table[i]
    {
      LayoutIsNormal(i);
      NormalizeFixesFirstEncounter(table[i]);
    }
  }

  /** No two entries of the table have the same domino structure. */
  lemma LayoutsDistinct(table: seq<Grid>)
    requires HasLayouts(table)
    ensures Distinct(table)
  {
    NormTableIsTable(table);
    forall i, j | 0 <= i < j < 36
      ensures NormTable(table)[i] != NormTable(table)[j]
    {
      LayoutsDiffer(i, j);
    }
    DistinctIffNormsDistinct(table);
  }

  /** The 36 tilings of `PATTERNS` are pairwise different tilings. */
  lemma PatternsDistinct()
    ensures Distinct(Patterns())
  {
    PatternsHaveLayouts();
    LayoutsDistinct(Patterns());
  }

  /** The quarter turn carries P1 onto P36, renaming block x to [3, 7, 2, 6, 1, 5, 0, 4][x]; the lookup finds P36. */
  lemma QuarterTurnOfP1(table: seq<Grid>)
    requires HasLayouts(table)
    ensures SameShape(Transform(table[0], R90), table[35])
    ensures Image(table, 0, R90) == Some(35)
  {
    QuarterTurnOfP1Row0();
    QuarterTurnOfP1Row1();
    QuarterTurnOfP1Row2();
    QuarterTurnOfP1Row3();
    MovedByRenaming(table, 0, 35, R90, [3, 7, 2, 6, 1, 5, 0, 4], [6, 4, 2, 0, 7, 5, 3, 1]);
    LayoutsDistinct(table);
    ImageIff(table, 0, R90, 35);
  }

  lemma QuarterTurnOfP1Row0()
    ensures MovedRow0(Layout(0), Layout(35), R90, [3, 7, 2, 6, 1, 5, 0, 4], [6, 4, 2, 0, 7, 5, 3, 1])
  {
  }

  lemma QuarterTurnOfP1Row1()
    ensures MovedRow1(Layout(0), Layout(35), R90, [3, 7, 2, 6, 1, 5, 0, 4], [6, 4, 2, 0, 7, 5, 3, 1])
  {
  }

  lemma QuarterTurnOfP1Row2()
    ensures MovedRow2(Layout(0), Layout(35), R90, [3, 7, 2, 6, 1, 5, 0, 4], [6, 4, 2, 0, 7, 5, 3, 1])
  {
  }

  lemma QuarterTurnOfP1Row3()
    ensures MovedRow3(Layout(0), Layout(35), R90, [3, 7, 2, 6, 1, 5, 0, 4], [6, 4, 2, 0, 7, 5, 3, 1])
  {
  }

  /** The quarter turn carries P2 onto P33, renaming block x to [3, 6, 2, 5, 1, 4, 7, 0][x]; the lookup finds P33. */
  lemma QuarterTurnOfP2(table: seq<Grid>)
    requires HasLayouts(table)
    ensures SameShape(Transform(table[1], R90), table[32])
    ensures Image(table, 1, R90) == Some(32)
  {
    QuarterTurnOfP2Row0();
    QuarterTurnOfP2Row1();
    QuarterTurnOfP2Row2();
    QuarterTurnOfP2Row3();
    MovedByRenaming(table, 1, 32, R90, [3, 6, 2, 5, 1, 4, 7, 0], [7, 4, 2, 0, 5, 3, 1, 6]);
    LayoutsDistinct(table);
    ImageIff(table, 1, R90, 32);
  }

  lemma QuarterTurnOfP2Row0()
    ensures MovedRow0(Layout(1), Layout(32), R90, [3, 6, 2, 5, 1, 4, 7, 0], [7, 4, 2, 0, 5, 3, 1, 6])
  {
  }

  lemma QuarterTurnOfP2Row1()
    ensures MovedRow1(Layout(1), Layout(32), R90, [3, 6, 2, 5, 1, 4, 7, 0], [7, 4, 2, 0, 5, 3, 1, 6])
  {
  }

  lemma QuarterTurnOfP2Row2()
    ensures MovedRow2(Layout(1), Layout(32), R90, [3, 6, 2, 5, 1, 4, 7, 0], [7, 4, 2, 0, 5, 3, 1, 6])
  {
  }

  lemma QuarterTurnOfP2Row3()
    ensures MovedRow3(Layout(1), Layout(32), R90, [3, 6, 2, 5, 1, 4, 7, 0], [7, 4, 2, 0, 5, 3, 1, 6])
  {
  }

  /** The quarter turn carries P3 onto P18, renaming block x to [2, 6, 1, 5, 0, 4, 7, 3][x]; the lookup finds P18. */
  lemma QuarterTurnOfP3(table: seq<Grid>)
    requires HasLayouts(table)
    ensures SameShape(Transform(table[2], R90), table[17])
    ensures Image(table, 2, R90) == Some(17)
  {
    QuarterTurnOfP3Row0();
    QuarterTurnOfP3Row1();
    QuarterTurnOfP3Row2();
    QuarterTurnOfP3Row3();
    MovedByRenaming(table, 2, 17, R90, [2, 6, 1, 5, 0, 4, 7, 3], [4, 2, 0, 7, 5, 3, 1, 6]);
    LayoutsDistinct(table);
    ImageIff(table, 2, R90, 17);
  }

  lemma QuarterTurnOfP3Row0()
    ensures MovedRow0(Layout(2), Layout(17), R90, [2, 6, 1, 5, 0, 4, 7, 3], [4, 2, 0, 7, 5, 3, 1, 6])
  {
  }

  lemma QuarterTurnOfP3Row1()
    ensures MovedRow1(Layout(2), Layout(17), R90, [2, 6, 1, 5, 0, 4, 7, 3], [4, 2, 0, 7, 5, 3, 1, 6])
  {
  }

  lemma QuarterTurnOfP3Row2()
    ensures MovedRow2(Layout(2), Layout(17), R90, [2, 6, 1, 5, 0, 4, 7, 3], [4, 2, 0, 7, 5, 3, 1, 6])
  {
  }

  lemma QuarterTurnOfP3Row3()
    ensures MovedRow3(Layout(2), Layout(17), R90, [2, 6, 1, 5, 0, 4, 7, 3], [4, 2, 0, 7, 5, 3, 1, 6])
  {
  }

  /** The quarter turn carries P4 onto P16, renaming block x to [2, 7, 1, 6, 0, 3, 5, 4][x]; the lookup finds P16. */
  lemma QuarterTurnOfP4(table: seq<Grid>)
    requires HasLayouts(table)
    ensures SameShape(Transform(table[3], R90), table[15])
    ensures Image(table, 3, R90) == Some(15)
  {
    QuarterTurnOfP4Row0();
    QuarterTurnOfP4Row1();
    QuarterTurnOfP4Row2();
    QuarterTurnOfP4Row3();
    MovedByRenaming(table, 3, 15, R90, [2, 7, 1, 6, 0, 3, 5, 4], [4, 2, 0, 5, 7, 6, 3, 1]);
    LayoutsDistinct(table);
    ImageIff(table, 3, R90, 15);
  }

  lemma QuarterTurnOfP4Row0()
    ensures MovedRow0(Layout(3), Layout(15), R90, [2, 7, 1, 6, 0, 3, 5, 4], [4, 2, 0, 5, 7, 6, 3, 1])
  {
  }

  lemma QuarterTurnOfP4Row1()
    ensures MovedRow1(Layout(3), Layout(15), R90, [2, 7, 1, 6, 0, 3, 5, 4], [4, 2, 0, 5, 7, 6, 3, 1])
  {
  }

  lemma QuarterTurnOfP4Row2()
    ensures MovedRow2(Layout(3), Layout(15), R90, [2, 7, 1, 6, 0, 3, 5, 4], [4, 2, 0, 5, 7, 6, 3, 1])
  {
  }

  lemma QuarterTurnOfP4Row3()
    ensures MovedRow3(Layout(3), Layout(15), R90, [2, 7, 1, 6, 0, 3, 5, 4], [4, 2, 0, 5, 7, 6, 3, 1])
  {
  }

  /** The quarter turn carries P5 onto P13, renaming block x to [2, 6, 1, 5, 0, 3, 4, 7][x]; the lookup finds P13. */
  lemma QuarterTurnOfP5(table: seq<Grid>)
    requires HasLayouts(table)
    ensures SameShape(Transform(table[4], R90), table[12])
    ensures Image(table, 4, R90) == Some(12)
  {
    QuarterTurnOfP5Row0();
    QuarterTurnOfP5Row1();
    QuarterTurnOfP5Row2();
    QuarterTurnOfP5Row3();
    MovedByRenaming(table, 4, 12, R90, [2, 6, 1, 5, 0, 3, 4, 7], [4, 2, 0, 5, 6, 3, 1, 7]);
    LayoutsDistinct(table);
    ImageIff(table, 4, R90, 12);
  }

  lemma QuarterTurnOfP5Row0()
    ensures MovedRow0(Layout(4), Layout(12), R90, [2, 6, 1, 5, 0, 3, 4, 7], [4, 2, 0, 5, 6, 3, 1, 7])
  {
  }

  lemma QuarterTurnOfP5Row1()
    ensures MovedRow1(Layout(4), Layout(12), R90, [2, 6, 1, 5, 0, 3, 4, 7], [4, 2, 0, 5, 6, 3, 1, 7])
  {
  }

  lemma QuarterTurnOfP5Row2()
    ensures MovedRow2(Layout(4), Layout(12), R90, [2, 6, 1, 5, 0, 3, 4, 7], [4, 2, 0, 5, 6, 3, 1, 7])
  {
  }

  lemma QuarterTurnOfP5Row3()
    ensures MovedRow3(Layout(4), Layout(12), R90, [2, 6, 1, 5, 0, 3, 4, 7], [4, 2, 0, 5, 6, 3, 1, 7])
  {
  }

  /** The quarter turn carries P6 onto P34, renaming block x to [3, 6, 2, 5, 7, 1, 0, 4][x]; the lookup finds P34. */
  lemma QuarterTurnOfP6(table: seq<Grid>)
    requires HasLayouts(table)
    ensures SameShape(Transform(table[5], R90), table[33])
    ensures Image(table, 5, R90) == Some(33)
  {
    QuarterTurnOfP6Row0();
    QuarterTurnOfP6Row1();
    QuarterTurnOfP6Row2();
    QuarterTurnOfP6Row3();
    MovedByRenaming(table, 5, 33, R90, [3, 6, 2, 5, 7, 1, 0, 4], [6, 5, 2, 0, 7, 3, 1, 4]);
    LayoutsDistinct(table);
    ImageIff(table, 5, R90, 33);
  }

  lemma QuarterTurnOfP6Row0()
    ensures MovedRow0(Layout(5), Layout(33), R90, [3, 6, 2, 5, 7, 1, 0, 4], [6, 5, 2, 0, 7, 3, 1, 4])
  {
  }

  lemma QuarterTurnOfP6Row1()
    ensures MovedRow1(Layout(5), Layout(33), R90, [3, 6, 2, 5, 7, 1, 0, 4], [6, 5, 2, 0, 7, 3, 1, 4])
  {
  }

  lemma QuarterTurnOfP6Row2()
    ensures MovedRow2(Layout(5), Layout(33), R90, [3, 6, 2, 5, 7, 1, 0, 4], [6, 5, 2, 0, 7, 3, 1, 4])
  {
  }

  lemma QuarterTurnOfP6Row3()
    ensures MovedRow3(Layout(5), Layout(33), R90, [3, 6, 2, 5, 7, 1, 0, 4], [6, 5, 2, 0, 7, 3, 1, 4])
  {
  }

  /** The quarter turn carries P7 onto P14, renaming block x to [2, 6, 1, 5, 7, 0, 3, 4][x]; the lookup finds P14. */
  lemma QuarterTurnOfP7(table: seq<Grid>)
    requires HasLayouts(table)
    ensures SameShape(Transform(table[6], R90), table[13])
    ensures Image(table, 6, R90) == Some(13)
  {
    QuarterTurnOfP7Row0();
    QuarterTurnOfP7Row1();
    QuarterTurnOfP7Row2();
    QuarterTurnOfP7Row3();
    MovedByRenaming(table, 6, 13, R90, [2, 6, 1, 5, 7, 0, 3, 4], [5, 2, 0, 6, 7, 3, 1, 4]);
    LayoutsDistinct(table);
    ImageIff(table, 6, R90, 13);
  }

  lemma QuarterTurnOfP7Row0()
    ensures MovedRow0(Layout(6), Layout(13), R90, [2, 6, 1, 5, 7, 0, 3, 4], [5, 2, 0, 6, 7, 3, 1, 4])
  {
  }

  lemma QuarterTurnOfP7Row1()
    ensures MovedRow1(Layout(6), Layout(13), R90, [2, 6, 1, 5, 7, 0, 3, 4], [5, 2, 0, 6, 7, 3, 1, 4])
  {
  }

  lemma QuarterTurnOfP7Row2()
    ensures MovedRow2(Layout(6), Layout(13), R90, [2, 6, 1, 5, 7, 0, 3, 4], [5, 2, 0, 6, 7, 3, 1, 4])
  {
  }

  lemma QuarterTurnOfP7Row3()
    ensures MovedRow3(Layout(6), Layout(13), R90, [2, 6, 1, 5, 7, 0, 3, 4], [5, 2, 0, 6, 7, 3, 1, 4])
  {
  }

  /** The quarter turn carries P8 onto P24, renaming block x to [2, 6, 1, 4, 7, 3, 0, 5][x]; the lookup finds P24. */
  lemma QuarterTurnOfP8(table: seq<Grid>)
    requires HasLayouts(table)
    ensures SameShape(Transform(table[7], R90), table[23])
    ensures Image(table, 7, R90) == Some(23)
  {
    QuarterTurnOfP8Row0();
    QuarterTurnOfP8Row1();
    QuarterTurnOfP8Row2();
    QuarterTurnOfP8Row3();
    MovedByRenaming(table, 7, 23, R90, [2, 6, 1, 4, 7, 3, 0, 5], [6, 2, 0, 5, 3, 7, 1, 4]);
    LayoutsDistinct(table);
    ImageIff(table, 7, R90, 23);
  }

  lemma QuarterTurnOfP8Row0()
    ensures MovedRow0(Layout(7), Layout(23), R90, [2, 6, 1, 4, 7, 3, 0, 5], [6, 2, 0, 5, 3, 7, 1, 4])
  {
  }

  lemma QuarterTurnOfP8Row1()
    ensures MovedRow1(Layout(7), Layout(23), R90, [2, 6, 1, 4, 7, 3, 0, 5], [6, 2, 0, 5, 3, 7, 1, 4])
  {
  }

  lemma QuarterTurnOfP8Row2()
    ensures MovedRow2(Layout(7), Layout(23), R90, [2, 6, 1, 4, 7, 3, 0, 5], [6, 2, 0, 5, 3, 7, 1, 4])
  {
  }

  lemma QuarterTurnOfP8Row3()
    ensures MovedRow3(Layout(7), Layout(23), R90, [2, 6, 1, 4, 7, 3, 0, 5], [6, 2, 0, 5, 3, 7, 1, 4])
  {
  }

  /** The quarter turn carries P9 onto P23, renaming block x to [2, 7, 1, 3, 6, 5, 0, 4][x]; the lookup finds P23. */
  lemma QuarterTurnOfP9(table: seq<Grid>)
    requires HasLayouts(table)
    ensures SameShape(Transform(table[8], R90), table[22])
    ensures Image(table, 8, R90) == Some(22)
  {
    QuarterTurnOfP9Row0();
    QuarterTurnOfP9Row1();
    QuarterTurnOfP9Row2();
    QuarterTurnOfP9Row3();
    MovedByRenaming(table, 8, 22, R90, [2, 7, 1, 3, 6, 5, 0, 4], [6, 2, 0, 3, 7, 5, 4, 1]);
    LayoutsDistinct(table);
    ImageIff(table, 8, R90, 22);
  }

  lemma QuarterTurnOfP9Row0()
    ensures MovedRow0(Layout(8), Layout(22), R90, [2, 7, 1, 3, 6, 5, 0, 4], [6, 2, 0, 3, 7, 5, 4, 1])
  {
  }

  lemma QuarterTurnOfP9Row1()
    ensures MovedRow1(Layout(8), Layout(22), R90, [2, 7, 1, 3, 6, 5, 0, 4], [6, 2, 0, 3, 7, 5, 4, 1])
  {
  }

  lemma QuarterTurnOfP9Row2()
    ensures MovedRow2(Layout(8), Layout(22), R90, [2, 7, 1, 3, 6, 5, 0, 4], [6, 2, 0, 3, 7, 5, 4, 1])
  {
  }

  lemma QuarterTurnOfP9Row3()
    ensures MovedRow3(Layout(8), Layout(22), R90, [2, 7, 1, 3, 6, 5, 0, 4], [6, 2, 0, 3, 7, 5, 4, 1])
  {
  }

  /** The quarter turn carries P10 onto P20, renaming block x to [2, 6, 1, 3, 5, 4, 7, 0][x]; the lookup finds P20. */
  lemma QuarterTurnOfP10(table: seq<Grid>)
    requires HasLayouts(table)
    ensures SameShape(Transform(table[9], R90), table[19])
    ensures Image(table, 9, R90) == Some(19)
  {
    QuarterTurnOfP10Row0();
    QuarterTurnOfP10Row1();
    QuarterTurnOfP10Row2();
    QuarterTurnOfP10Row3();
    MovedByRenaming(table, 9, 19, R90, [2, 6, 1, 3, 5, 4, 7, 0], [7, 2, 0, 3, 5, 4, 1, 6]);
    LayoutsDistinct(table);
    ImageIff(table, 9, R90, 19);
  }

  lemma QuarterTurnOfP10Row0()
    ensures MovedRow0(Layout(9), Layout(19), R90, [2, 6, 1, 3, 5, 4, 7, 0], [7, 2, 0, 3, 5, 4, 1, 6])
  {
  }

  lemma QuarterTurnOfP10Row1()
    ensures MovedRow1(Layout(9), Layout(19), R90, [2, 6, 1, 3, 5, 4, 7, 0], [7, 2, 0, 3, 5, 4, 1, 6])
  {
  }

  lemma QuarterTurnOfP10Row2()
    ensures MovedRow2(Layout(9), Layout(19), R90, [2, 6, 1, 3, 5, 4, 7, 0], [7, 2, 0, 3, 5, 4, 1, 6])
  {
  }

  lemma QuarterTurnOfP10Row3()
    ensures MovedRow3(Layout(9), Layout(19), R90, [2, 6, 1, 3, 5, 4, 7, 0], [7, 2, 0, 3, 5, 4, 1, 6])
  {
  }

  /** The quarter turn carries P11 onto P21, renaming block x to [2, 6, 1, 3, 5, 7, 0, 4][x]; the lookup finds P21. */
  lemma QuarterTurnOfP11(table: seq<Grid>)
    requires HasLayouts(table)
    ensures SameShape(Transform(table[10], R90), table[20])
    ensures Image(table, 10, R90) == Some(20)
  {
    QuarterTurnOfP11Row0();
    QuarterTurnOfP11Row1();
    QuarterTurnOfP11Row2();
    QuarterTurnOfP11Row3();
    MovedByRenaming(table, 10, 20, R90, [2, 6, 1, 3, 5, 7, 0, 4], [6, 2, 0, 3, 7, 4, 1, 5]);
    LayoutsDistinct(table);
    ImageIff(table, 10, R90, 20);
  }

  lemma QuarterTurnOfP11Row0()
    ensures MovedRow0(Layout(10), Layout(20), R90, [2, 6, 1, 3, 5, 7, 0, 4], [6, 2, 0, 3, 7, 4, 1, 5])
  {
  }

  lemma QuarterTurnOfP11Row1()
    ensures MovedRow1(Layout(10), Layout(20), R90, [2, 6, 1, 3, 5, 7, 0, 4], [6, 2, 0, 3, 7, 4, 1, 5])
  {
  }

  lemma QuarterTurnOfP11Row2()
    ensures MovedRow2(Layout(10), Layout(20), R90, [2, 6, 1, 3, 5, 7, 0, 4], [6, 2, 0, 3, 7, 4, 1, 5])
  {
  }

  lemma QuarterTurnOfP11Row3()
    ensures MovedRow3(Layout(10), Layout(20), R90, [2, 6, 1, 3, 5, 7, 0, 4], [6, 2, 0, 3, 7, 4, 1, 5])
  {
  }

  /** The quarter turn carries P12 onto P35, renaming block x to [3, 6, 7, 2, 1, 5, 0, 4][x]; the lookup finds P35. */
  lemma QuarterTurnOfP12(table: seq<Grid>)
    requires HasLayouts(table)
    ensures SameShape(Transform(table[11], R90), table[34])
    ensures Image(table, 11, R90) == Some(34)
  {
    QuarterTurnOfP12Row0();
    QuarterTurnOfP12Row1();
    QuarterTurnOfP12Row2();
    QuarterTurnOfP12Row3();
    MovedByRenaming(table, 11, 34, R90, [3, 6, 7, 2, 1, 5, 0, 4], [6, 4, 3, 0, 7, 5, 1, 2]);
    LayoutsDistinct(table);
    ImageIff(table, 11, R90, 34);
  }

  lemma QuarterTurnOfP12Row0()
    ensures MovedRow0(Layout(11), Layout(34), R90, [3, 6, 7, 2, 1, 5, 0, 4], [6, 4, 3, 0, 7, 5, 1, 2])
  {
  }

  lemma QuarterTurnOfP12Row1()
    ensures MovedRow1(Layout(11), Layout(34), R90, [3, 6, 7, 2, 1, 5, 0, 4], [6, 4, 3, 0, 7, 5, 1, 2])
  {
  }

  lemma QuarterTurnOfP12Row2()
    ensures MovedRow2(Layout(11), Layout(34), R90, [3, 6, 7, 2, 1, 5, 0, 4], [6, 4, 3, 0, 7, 5, 1, 2])
  {
  }

  lemma QuarterTurnOfP12Row3()
    ensures MovedRow3(Layout(11), Layout(34), R90, [3, 6, 7, 2, 1, 5, 0, 4], [6, 4, 3, 0, 7, 5, 1, 2])
  {
  }

  /** The quarter turn carries P13 onto P32, renaming block x to [3, 5, 7, 2, 1, 4, 6, 0][x]; the lookup finds P32. */
  lemma QuarterTurnOfP13(table: seq<Grid>)
    requires HasLayouts(table)
    ensures SameShape(Transform(table[12], R90), table[31])
    ensures Image(table, 12, R90) == Some(31)
  {
    QuarterTurnOfP13Row0();
    QuarterTurnOfP13Row1();
    QuarterTurnOfP13Row2();
    QuarterTurnOfP13Row3();
    MovedByRenaming(table, 12, 31, R90, [3, 5, 7, 2, 1, 4, 6, 0], [7, 4, 3, 0, 5, 1, 6, 2]);
    LayoutsDistinct(table);
    ImageIff(table, 12, R90, 31);
  }

  lemma QuarterTurnOfP13Row0()
    ensures MovedRow0(Layout(12), Layout(31), R90, [3, 5, 7, 2, 1, 4, 6, 0], [7, 4, 3, 0, 5, 1, 6, 2])
  {
  }

  lemma QuarterTurnOfP13Row1()
    ensures MovedRow1(Layout(12), Layout(31), R90, [3, 5, 7, 2, 1, 4, 6, 0], [7, 4, 3, 0, 5, 1, 6, 2])
  {
  }

  lemma QuarterTurnOfP13Row2()
    ensures MovedRow2(Layout(12), Layout(31), R90, [3, 5, 7, 2, 1, 4, 6, 0], [7, 4, 3, 0, 5, 1, 6, 2])
  {
  }

  lemma QuarterTurnOfP13Row3()
    ensures MovedRow3(Layout(12), Layout(31), R90, [3, 5, 7, 2, 1, 4, 6, 0], [7, 4, 3, 0, 5, 1, 6, 2])
  {
  }

  /** The quarter turn carries P14 onto P17, renaming block x to [2, 5, 7, 1, 0, 4, 6, 3][x]; the lookup finds P17. */
  lemma QuarterTurnOfP14(table: seq<Grid>)
    requires HasLayouts(table)
    ensures SameShape(Transform(table[13], R90), table[16])
    ensures Image(table, 13, R90) == Some(16)
  {
    QuarterTurnOfP14Row0();
    QuarterTurnOfP14Row1();
    QuarterTurnOfP14Row2();
    QuarterTurnOfP14Row3();
    MovedByRenaming(table, 13, 16, R90, [2, 5, 7, 1, 0, 4, 6, 3], [4, 3, 0, 7, 5, 1, 6, 2]);
    LayoutsDistinct(table);
    ImageIff(table, 13, R90, 16);
  }

  lemma QuarterTurnOfP14Row0()
    ensures MovedRow0(Layout(13), Layout(16), R90, [2, 5, 7, 1, 0, 4, 6, 3], [4, 3, 0, 7, 5, 1, 6, 2])
  {
  }

  lemma QuarterTurnOfP14Row1()
    ensures MovedRow1(Layout(13), Layout(16), R90, [2, 5, 7, 1, 0, 4, 6, 3], [4, 3, 0, 7, 5, 1, 6, 2])
  {
  }

  lemma QuarterTurnOfP14Row2()
    ensures MovedRow2(Layout(13), Layout(16), R90, [2, 5, 7, 1, 0, 4, 6, 3], [4, 3, 0, 7, 5, 1, 6, 2])
  {
  }

  lemma QuarterTurnOfP14Row3()
    ensures MovedRow3(Layout(13), Layout(16), R90, [2, 5, 7, 1, 0, 4, 6, 3], [4, 3, 0, 7, 5, 1, 6, 2])
  {
  }

  /** The quarter turn carries P15 onto P15, renaming block x to [2, 6, 7, 1, 0, 3, 5, 4][x]; the lookup finds P15. */
  lemma QuarterTurnOfP15(table: seq<Grid>)
    requires HasLayouts(table)
    ensures SameShape(Transform(table[14], R90), table[14])
    ensures Image(table, 14, R90) == Some(14)
  {
    QuarterTurnOfP15Row0();
    QuarterTurnOfP15Row1();
    QuarterTurnOfP15Row2();
    QuarterTurnOfP15Row3();
    MovedByRenaming(table, 14, 14, R90, [2, 6, 7, 1, 0, 3, 5, 4], [4, 3, 0, 5, 7, 6, 1, 2]);
    LayoutsDistinct(table);
    ImageIff(table, 14, R90, 14);
  }

  lemma QuarterTurnOfP15Row0()
    ensures MovedRow0(Layout(14), Layout(14), R90, [2, 6, 7, 1, 0, 3, 5, 4], [4, 3, 0, 5, 7, 6, 1, 2])
  {
  }

  lemma QuarterTurnOfP15Row1()
    ensures MovedRow1(Layout(14), Layout(14), R90, [2, 6, 7, 1, 0, 3, 5, 4], [4, 3, 0, 5, 7, 6, 1, 2])
  {
  }

  lemma QuarterTurnOfP15Row2()
    ensures MovedRow2(Layout(14), Layout(14), R90, [2, 6, 7, 1, 0, 3, 5, 4], [4, 3, 0, 5, 7, 6, 1, 2])
  {
  }

  lemma QuarterTurnOfP15Row3()
    ensures MovedRow3(Layout(14), Layout(14), R90, [2, 6, 7, 1, 0, 3, 5, 4], [4, 3, 0, 5, 7, 6, 1, 2])
  {
  }

  /** The quarter turn carries P16 onto P12, renaming block x to [2, 5, 7, 1, 0, 3, 4, 6][x]; the lookup finds P12. */
  lemma QuarterTurnOfP16(table: seq<Grid>)
    requires HasLayouts(table)
    ensures SameShape(Transform(table[15], R90), table[11])
    ensures Image(table, 15, R90) == Some(11)
  {
    QuarterTurnOfP16Row0();
    QuarterTurnOfP16Row1();
    QuarterTurnOfP16Row2();
    QuarterTurnOfP16Row3();
    MovedByRenaming(table, 15, 11, R90, [2, 5, 7, 1, 0, 3, 4, 6], [4, 3, 0, 5, 6, 1, 7, 2]);
    LayoutsDistinct(table);
    ImageIff(table, 15, R90, 11);
  }

  lemma QuarterTurnOfP16Row0()
    ensures MovedRow0(Layout(15), Layout(11), R90, [2, 5, 7, 1, 0, 3, 4, 6], [4, 3, 0, 5, 6, 1, 7, 2])
  {
  }

  lemma QuarterTurnOfP16Row1()
    ensures MovedRow1(Layout(15), Layout(11), R90, [2, 5, 7, 1, 0, 3, 4, 6], [4, 3, 0, 5, 6, 1, 7, 2])
  {
  }

  lemma QuarterTurnOfP16Row2()
    ensures MovedRow2(Layout(15), Layout(11), R90, [2, 5, 7, 1, 0, 3, 4, 6], [4, 3, 0, 5, 6, 1, 7, 2])
  {
  }

  lemma QuarterTurnOfP16Row3()
    ensures MovedRow3(Layout(15), Layout(11), R90, [2, 5, 7, 1, 0, 3, 4, 6], [4, 3, 0, 5, 6, 1, 7, 2])
  {
  }

  /** The quarter turn carries P17 onto P22, renaming block x to [2, 6, 7, 1, 3, 5, 0, 4][x]; the lookup finds P22. */
  lemma QuarterTurnOfP17(table: seq<Grid>)
    requires HasLayouts(table)
    ensures SameShape(Transform(table[16], R90), table[21])
    ensures Image(table, 16, R90) == Some(21)
  {
    QuarterTurnOfP17Row0();
    QuarterTurnOfP17Row1();
    QuarterTurnOfP17Row2();
    QuarterTurnOfP17Row3();
    MovedByRenaming(table, 16, 21, R90, [2, 6, 7, 1, 3, 5, 0, 4], [6, 3, 0, 4, 7, 5, 1, 2]);
    LayoutsDistinct(table);
    ImageIff(table, 16, R90, 21);
  }

  lemma QuarterTurnOfP17Row0()
    ensures MovedRow0(Layout(16), Layout(21), R90, [2, 6, 7, 1, 3, 5, 0, 4], [6, 3, 0, 4, 7, 5, 1, 2])
  {
  }

  lemma QuarterTurnOfP17Row1()
    ensures MovedRow1(Layout(16), Layout(21), R90, [2, 6, 7, 1, 3, 5, 0, 4], [6, 3, 0, 4, 7, 5, 1, 2])
  {
  }

  lemma QuarterTurnOfP17Row2()
    ensures MovedRow2(Layout(16), Layout(21), R90, [2, 6, 7, 1, 3, 5, 0, 4], [6, 3, 0, 4, 7, 5, 1, 2])
  {
  }

  lemma QuarterTurnOfP17Row3()
    ensures MovedRow3(Layout(16), Layout(21), R90, [2, 6, 7, 1, 3, 5, 0, 4], [6, 3, 0, 4, 7, 5, 1, 2])
  {
  }

  /** The quarter turn carries P18 onto P19, renaming block x to [2, 5, 7, 1, 3, 4, 6, 0][x]; the lookup finds P19. */
  lemma QuarterTurnOfP18(table: seq<Grid>)
    requires HasLayouts(table)
    ensures SameShape(Transform(table[17], R90), table[18])
    ensures Image(table, 17, R90) == Some(18)
  {
    QuarterTurnOfP18Row0();
    QuarterTurnOfP18Row1();
    QuarterTurnOfP18Row2();
    QuarterTurnOfP18Row3();
    MovedByRenaming(table, 17, 18, R90, [2, 5, 7, 1, 3, 4, 6, 0], [7, 3, 0, 4, 5, 1, 6, 2]);
    LayoutsDistinct(table);
    ImageIff(table, 17, R90, 18);
  }

  lemma QuarterTurnOfP18Row0()
    ensures MovedRow0(Layout(17), Layout(18), R90, [2, 5, 7, 1, 3, 4, 6, 0], [7, 3, 0, 4, 5, 1, 6, 2])
  {
  }

  lemma QuarterTurnOfP18Row1()
    ensures MovedRow1(Layout(17), Layout(18), R90, [2, 5, 7, 1, 3, 4, 6, 0], [7, 3, 0, 4, 5, 1, 6, 2])
  {
  }

  lemma QuarterTurnOfP18Row2()
    ensures MovedRow2(Layout(17), Layout(18), R90, [2, 5, 7, 1, 3, 4, 6, 0], [7, 3, 0, 4, 5, 1, 6, 2])
  {
  }

  lemma QuarterTurnOfP18Row3()
    ensures MovedRow3(Layout(17), Layout(18), R90, [2, 5, 7, 1, 3, 4, 6, 0], [7, 3, 0, 4, 5, 1, 6, 2])
  {
  }

  /** The quarter turn carries P19 onto P31, renaming block x to [2, 4, 7, 3, 1, 6, 0, 5][x]; the lookup finds P31. */
  lemma QuarterTurnOfP19(table: seq<Grid>)
    requires HasLayouts(table)
    ensures SameShape(Transform(table[18], R90), table[30])
    ensures Image(table, 18, R90) == Some(30)
  {
    QuarterTurnOfP19Row0();
    QuarterTurnOfP19Row1();
    QuarterTurnOfP19Row2();
    QuarterTurnOfP19Row3();
    MovedByRenaming(table, 18, 30, R90, [2, 4, 7, 3, 1, 6, 0, 5], [6, 4, 0, 3, 1, 7, 5, 2]);
    LayoutsDistinct(table);
    ImageIff(table, 18, R90, 30);
  }

  lemma QuarterTurnOfP19Row0()
    ensures MovedRow0(Layout(18), Layout(30), R90, [2, 4, 7, 3, 1, 6, 0, 5], [6, 4, 0, 3, 1, 7, 5, 2])
  {
  }

  lemma QuarterTurnOfP19Row1()
    ensures MovedRow1(Layout(18), Layout(30), R90, [2, 4, 7, 3, 1, 6, 0, 5], [6, 4, 0, 3, 1, 7, 5, 2])
  {
  }

  lemma QuarterTurnOfP19Row2()
    ensures MovedRow2(Layout(18), Layout(30), R90, [2, 4, 7, 3, 1, 6, 0, 5], [6, 4, 0, 3, 1, 7, 5, 2])
  {
  }

  lemma QuarterTurnOfP19Row3()
    ensures MovedRow3(Layout(18), Layout(30), R90, [2, 4, 7, 3, 1, 6, 0, 5], [6, 4, 0, 3, 1, 7, 5, 2])
  {
  }

  /** The quarter turn carries P20 onto P30, renaming block x to [2, 4, 7, 3, 1, 5, 6, 0][x]; the lookup finds P30. */
  lemma QuarterTurnOfP20(table: seq<Grid>)
    requires HasLayouts(table)
    ensures SameShape(Transform(table[19], R90), table[29])
    ensures Image(table, 19, R90) == Some(29)
  {
    QuarterTurnOfP20Row0();
    QuarterTurnOfP20Row1();
    QuarterTurnOfP20Row2();
    QuarterTurnOfP20Row3();
    MovedByRenaming(table, 19, 29, R90, [2, 4, 7, 3, 1, 5, 6, 0], [7, 4, 0, 3, 1, 5, 6, 2]);
    LayoutsDistinct(table);
    ImageIff(table, 19, R90, 29);
  }

  lemma QuarterTurnOfP20Row0()
    ensures MovedRow0(Layout(19), Layout(29), R90, [2, 4, 7, 3, 1, 5, 6, 0], [7, 4, 0, 3, 1, 5, 6, 2])
  {
  }

  lemma QuarterTurnOfP20Row1()
    ensures MovedRow1(Layout(19), Layout(29), R90, [2, 4, 7, 3, 1, 5, 6, 0], [7, 4, 0, 3, 1, 5, 6, 2])
  {
  }

  lemma QuarterTurnOfP20Row2()
    ensures MovedRow2(Layout(19), Layout(29), R90, [2, 4, 7, 3, 1, 5, 6, 0], [7, 4, 0, 3, 1, 5, 6, 2])
  {
  }

  lemma QuarterTurnOfP20Row3()
    ensures MovedRow3(Layout(19), Layout(29), R90, [2, 4, 7, 3, 1, 5, 6, 0], [7, 4, 0, 3, 1, 5, 6, 2])
  {
  }

  /** The quarter turn carries P21 onto P11, renaming block x to [1, 5, 7, 4, 0, 3, 6, 2][x]; the lookup finds P11. */
  lemma QuarterTurnOfP21(table: seq<Grid>)
    requires HasLayouts(table)
    ensures SameShape(Transform(table[20], R90), table[10])
    ensures Image(table, 20, R90) == Some(10)
  {
    QuarterTurnOfP21Row0();
    QuarterTurnOfP21Row1();
    QuarterTurnOfP21Row2();
    QuarterTurnOfP21Row3();
    MovedByRenaming(table, 20, 10, R90, [1, 5, 7, 4, 0, 3, 6, 2], [4, 0, 7, 5, 3, 1, 6, 2]);
    LayoutsDistinct(table);
    ImageIff(table, 20, R90, 10);
  }

  lemma QuarterTurnOfP21Row0()
    ensures MovedRow0(Layout(20), Layout(10), R90, [1, 5, 7, 4, 0, 3, 6, 2], [4, 0, 7, 5, 3, 1, 6, 2])
  {
  }

  lemma QuarterTurnOfP21Row1()
    ensures MovedRow1(Layout(20), Layout(10), R90, [1, 5, 7, 4, 0, 3, 6, 2], [4, 0, 7, 5, 3, 1, 6, 2])
  {
  }

  lemma QuarterTurnOfP21Row2()
    ensures MovedRow2(Layout(20), Layout(10), R90, [1, 5, 7, 4, 0, 3, 6, 2], [4, 0, 7, 5, 3, 1, 6, 2])
  {
  }

  lemma QuarterTurnOfP21Row3()
    ensures MovedRow3(Layout(20), Layout(10), R90, [1, 5, 7, 4, 0, 3, 6, 2], [4, 0, 7, 5, 3, 1, 6, 2])
  {
  }

  /** The quarter turn carries P22 onto P7, renaming block x to [1, 4, 7, 3, 0, 2, 6, 5][x]; the lookup finds P7. */
  lemma QuarterTurnOfP22(table: seq<Grid>)
    requires HasLayouts(table)
    ensures SameShape(Transform(table[21], R90), table[6])
    ensures Image(table, 21, R90) == Some(6)
  {
    QuarterTurnOfP22Row0();
    QuarterTurnOfP22Row1();
    QuarterTurnOfP22Row2();
    QuarterTurnOfP22Row3();
    MovedByRenaming(table, 21, 6, R90, [1, 4, 7, 3, 0, 2, 6, 5], [4, 0, 5, 3, 1, 7, 6, 2]);
    LayoutsDistinct(table);
    ImageIff(table, 21, R90, 6);
  }

  lemma QuarterTurnOfP22Row0()
    ensures MovedRow0(Layout(21), Layout(6), R90, [1, 4, 7, 3, 0, 2, 6, 5], [4, 0, 5, 3, 1, 7, 6, 2])
  {
  }

  lemma QuarterTurnOfP22Row1()
    ensures MovedRow1(Layout(21), Layout(6), R90, [1, 4, 7, 3, 0, 2, 6, 5], [4, 0, 5, 3, 1, 7, 6, 2])
  {
  }

  lemma QuarterTurnOfP22Row2()
    ensures MovedRow2(Layout(21), Layout(6), R90, [1, 4, 7, 3, 0, 2, 6, 5], [4, 0, 5, 3, 1, 7, 6, 2])
  {
  }

  lemma QuarterTurnOfP22Row3()
    ensures MovedRow3(Layout(21), Layout(6), R90, [1, 4, 7, 3, 0, 2, 6, 5], [4, 0, 5, 3, 1, 7, 6, 2])
  {
  }

  /** The quarter turn carries P23 onto P6, renaming block x to [1, 4, 7, 3, 0, 2, 5, 6][x]; the lookup finds P6. */
  lemma QuarterTurnOfP23(table: seq<Grid>)
    requires HasLayouts(table)
    ensures SameShape(Transform(table[22], R90), table[5])
    ensures Image(table, 22, R90) == Some(5)
  {
    QuarterTurnOfP23Row0();
    QuarterTurnOfP23Row1();
    QuarterTurnOfP23Row2();
    QuarterTurnOfP23Row3();
    MovedByRenaming(table, 22, 5, R90, [1, 4, 7, 3, 0, 2, 5, 6], [4, 0, 5, 3, 1, 6, 7, 2]);
    LayoutsDistinct(table);
    ImageIff(table, 22, R90, 5);
  }

  lemma QuarterTurnOfP23Row0()
    ensures MovedRow0(Layout(22), Layout(5), R90, [1, 4, 7, 3, 0, 2, 5, 6], [4, 0, 5, 3, 1, 6, 7, 2])
  {
  }

  lemma QuarterTurnOfP23Row1()
    ensures MovedRow1(Layout(22), Layout(5), R90, [1, 4, 7, 3, 0, 2, 5, 6], [4, 0, 5, 3, 1, 6, 7, 2])
  {
  }

  lemma QuarterTurnOfP23Row2()
    ensures MovedRow2(Layout(22), Layout(5), R90, [1, 4, 7, 3, 0, 2, 5, 6], [4, 0, 5, 3, 1, 6, 7, 2])
  {
  }

  lemma QuarterTurnOfP23Row3()
    ensures MovedRow3(Layout(22), Layout(5), R90, [1, 4, 7, 3, 0, 2, 5, 6], [4, 0, 5, 3, 1, 6, 7, 2])
  {
  }

  /** The quarter turn carries P24 onto P8, renaming block x to [1, 4, 7, 3, 5, 0, 6, 2][x]; the lookup finds P8. */
  lemma QuarterTurnOfP24(table: seq<Grid>)
    requires HasLayouts(table)
    ensures SameShape(Transform(table[23], R90), table[7])
    ensures Image(table, 23, R90) == Some(7)
  {
    QuarterTurnOfP24Row0();
    QuarterTurnOfP24Row1();
    QuarterTurnOfP24Row2();
    QuarterTurnOfP24Row3();
    MovedByRenaming(table, 23, 7, R90, [1, 4, 7, 3, 5, 0, 6, 2], [5, 0, 7, 3, 1, 4, 6, 2]);
    LayoutsDistinct(table);
    ImageIff(table, 23, R90, 7);
  }

  lemma QuarterTurnOfP24Row0()
    ensures MovedRow0(Layout(23), Layout(7), R90, [1, 4, 7, 3, 5, 0, 6, 2], [5, 0, 7, 3, 1, 4, 6, 2])
  {
  }

  lemma QuarterTurnOfP24Row1()
    ensures MovedRow1(Layout(23), Layout(7), R90, [1, 4, 7, 3, 5, 0, 6, 2], [5, 0, 7, 3, 1, 4, 6, 2])
  {
  }

  lemma QuarterTurnOfP24Row2()
    ensures MovedRow2(Layout(23), Layout(7), R90, [1, 4, 7, 3, 5, 0, 6, 2], [5, 0, 7, 3, 1, 4, 6, 2])
  {
  }

  lemma QuarterTurnOfP24Row3()
    ensures MovedRow3(Layout(23), Layout(7), R90, [1, 4, 7, 3, 5, 0, 6, 2], [5, 0, 7, 3, 1, 4, 6, 2])
  {
  }

  /** The quarter turn carries P25 onto P29, renaming block x to [2, 3, 7, 6, 1, 5, 0, 4][x]; the lookup finds P29. */
  lemma QuarterTurnOfP25(table: seq<Grid>)
    requires HasLayouts(table)
    ensures SameShape(Transform(table[24], R90), table[28])
    ensures Image(table, 24, R90) == Some(28)
  {
    QuarterTurnOfP25Row0();
    QuarterTurnOfP25Row1();
    QuarterTurnOfP25Row2();
    QuarterTurnOfP25Row3();
    MovedByRenaming(table, 24, 28, R90, [2, 3, 7, 6, 1, 5, 0, 4], [6, 4, 0, 1, 7, 5, 3, 2]);
    LayoutsDistinct(table);
    ImageIff(table, 24, R90, 28);
  }

  lemma QuarterTurnOfP25Row0()
    ensures MovedRow0(Layout(24), Layout(28), R90, [2, 3, 7, 6, 1, 5, 0, 4], [6, 4, 0, 1, 7, 5, 3, 2])
  {
  }

  lemma QuarterTurnOfP25Row1()
    ensures MovedRow1(Layout(24), Layout(28), R90, [2, 3, 7, 6, 1, 5, 0, 4], [6, 4, 0, 1, 7, 5, 3, 2])
  {
  }

  lemma QuarterTurnOfP25Row2()
    ensures MovedRow2(Layout(24), Layout(28), R90, [2, 3, 7, 6, 1, 5, 0, 4], [6, 4, 0, 1, 7, 5, 3, 2])
  {
  }

  lemma QuarterTurnOfP25Row3()
    ensures MovedRow3(Layout(24), Layout(28), R90, [2, 3, 7, 6, 1, 5, 0, 4], [6, 4, 0, 1, 7, 5, 3, 2])
  {
  }

  /** The quarter turn carries P26 onto P26, renaming block x to [2, 3, 6, 5, 1, 4, 7, 0][x]; the lookup finds P26. */
  lemma QuarterTurnOfP26(table: seq<Grid>)
    requires HasLayouts(table)
    ensures SameShape(Transform(table[25], R90), table[25])
    ensures Image(table, 25, R90) == Some(25)
  {
    QuarterTurnOfP26Row0();
    QuarterTurnOfP26Row1();
    QuarterTurnOfP26Row2();
    QuarterTurnOfP26Row3();
    MovedByRenaming(table, 25, 25, R90, [2, 3, 6, 5, 1, 4, 7, 0], [7, 4, 0, 1, 5, 3, 2, 6]);
    LayoutsDistinct(table);
    ImageIff(table, 25, R90, 25);
  }

  lemma QuarterTurnOfP26Row0()
    ensures MovedRow0(Layout(25), Layout(25), R90, [2, 3, 6, 5, 1, 4, 7, 0], [7, 4, 0, 1, 5, 3, 2, 6])
  {
  }

  lemma QuarterTurnOfP26Row1()
    ensures MovedRow1(Layout(25), Layout(25), R90, [2, 3, 6, 5, 1, 4, 7, 0], [7, 4, 0, 1, 5, 3, 2, 6])
  {
  }

  lemma QuarterTurnOfP26Row2()
    ensures MovedRow2(Layout(25), Layout(25), R90, [2, 3, 6, 5, 1, 4, 7, 0], [7, 4, 0, 1, 5, 3, 2, 6])
  {
  }

  lemma QuarterTurnOfP26Row3()
    ensures MovedRow3(Layout(25), Layout(25), R90, [2, 3, 6, 5, 1, 4, 7, 0], [7, 4, 0, 1, 5, 3, 2, 6])
  {
  }

  /** The quarter turn carries P27 onto P10, renaming block x to [1, 4, 6, 5, 0, 3, 7, 2][x]; the lookup finds P10. */
  lemma QuarterTurnOfP27(table: seq<Grid>)
    requires HasLayouts(table)
    ensures SameShape(Transform(table[26], R90), table[9])
    ensures Image(table, 26, R90) == Some(9)
  {
    QuarterTurnOfP27Row0();
    QuarterTurnOfP27Row1();
    QuarterTurnOfP27Row2();
    QuarterTurnOfP27Row3();
    MovedByRenaming(table, 26, 9, R90, [1, 4, 6, 5, 0, 3, 7, 2], [4, 0, 7, 5, 1, 3, 2, 6]);
    LayoutsDistinct(table);
    ImageIff(table, 26, R90, 9);
  }

  lemma QuarterTurnOfP27Row0()
    ensures MovedRow0(Layout(26), Layout(9), R90, [1, 4, 6, 5, 0, 3, 7, 2], [4, 0, 7, 5, 1, 3, 2, 6])
  {
  }

  lemma QuarterTurnOfP27Row1()
    ensures MovedRow1(Layout(26), Layout(9), R90, [1, 4, 6, 5, 0, 3, 7, 2], [4, 0, 7, 5, 1, 3, 2, 6])
  {
  }

  lemma QuarterTurnOfP27Row2()
    ensures MovedRow2(Layout(26), Layout(9), R90, [1, 4, 6, 5, 0, 3, 7, 2], [4, 0, 7, 5, 1, 3, 2, 6])
  {
  }

  lemma QuarterTurnOfP27Row3()
    ensures MovedRow3(Layout(26), Layout(9), R90, [1, 4, 6, 5, 0, 3, 7, 2], [4, 0, 7, 5, 1, 3, 2, 6])
  {
  }

  /** The quarter turn carries P28 onto P5, renaming block x to [1, 3, 7, 6, 0, 2, 5, 4][x]; the lookup finds P5. */
  lemma QuarterTurnOfP28(table: seq<Grid>)
    requires HasLayouts(table)
    ensures SameShape(Transform(table[27], R90), table[4])
    ensures Image(table, 27, R90) == Some(4)
  {
    QuarterTurnOfP28Row0();
    QuarterTurnOfP28Row1();
    QuarterTurnOfP28Row2();
    QuarterTurnOfP28Row3();
    MovedByRenaming(table, 27, 4, R90, [1, 3, 7, 6, 0, 2, 5, 4], [4, 0, 5, 1, 7, 6, 3, 2]);
    LayoutsDistinct(table);
    ImageIff(table, 27, R90, 4);
  }

  lemma QuarterTurnOfP28Row0()
    ensures MovedRow0(Layout(27), Layout(4), R90, [1, 3, 7, 6, 0, 2, 5, 4], [4, 0, 5, 1, 7, 6, 3, 2])
  {
  }

  lemma QuarterTurnOfP28Row1()
    ensures MovedRow1(Layout(27), Layout(4), R90, [1, 3, 7, 6, 0, 2, 5, 4], [4, 0, 5, 1, 7, 6, 3, 2])
  {
  }

  lemma QuarterTurnOfP28Row2()
    ensures MovedRow2(Layout(27), Layout(4), R90, [1, 3, 7, 6, 0, 2, 5, 4], [4, 0, 5, 1, 7, 6, 3, 2])
  {
  }

  lemma QuarterTurnOfP28Row3()
    ensures MovedRow3(Layout(27), Layout(4), R90, [1, 3, 7, 6, 0, 2, 5, 4], [4, 0, 5, 1, 7, 6, 3, 2])
  {
  }

  /** The quarter turn carries P29 onto P2, renaming block x to [1, 3, 6, 5, 0, 2, 4, 7][x]; the lookup finds P2. */
  lemma QuarterTurnOfP29(table: seq<Grid>)
    requires HasLayouts(table)
    ensures SameShape(Transform(table[28], R90), table[1])
    ensures Image(table, 28, R90) == Some(1)
  {
    QuarterTurnOfP29Row0();
    QuarterTurnOfP29Row1();
    QuarterTurnOfP29Row2();
    QuarterTurnOfP29Row3();
    MovedByRenaming(table, 28, 1, R90, [1, 3, 6, 5, 0, 2, 4, 7], [4, 0, 5, 1, 6, 3, 2, 7]);
    LayoutsDistinct(table);
    ImageIff(table, 28, R90, 1);
  }

  lemma QuarterTurnOfP29Row0()
    ensures MovedRow0(Layout(28), Layout(1), R90, [1, 3, 6, 5, 0, 2, 4, 7], [4, 0, 5, 1, 6, 3, 2, 7])
  {
  }

  lemma QuarterTurnOfP29Row1()
    ensures MovedRow1(Layout(28), Layout(1), R90, [1, 3, 6, 5, 0, 2, 4, 7], [4, 0, 5, 1, 6, 3, 2, 7])
  {
  }

  lemma QuarterTurnOfP29Row2()
    ensures MovedRow2(Layout(28), Layout(1), R90, [1, 3, 6, 5, 0, 2, 4, 7], [4, 0, 5, 1, 6, 3, 2, 7])
  {
  }

  lemma QuarterTurnOfP29Row3()
    ensures MovedRow3(Layout(28), Layout(1), R90, [1, 3, 6, 5, 0, 2, 4, 7], [4, 0, 5, 1, 6, 3, 2, 7])
  {
  }

  /** The quarter turn carries P30 onto P27, renaming block x to [2, 3, 6, 5, 7, 1, 0, 4][x]; the lookup finds P27. */
  lemma QuarterTurnOfP30(table: seq<Grid>)
    requires HasLayouts(table)
    ensures SameShape(Transform(table[29], R90), table[26])
    ensures Image(table, 29, R90) == Some(26)
  {
    QuarterTurnOfP30Row0();
    QuarterTurnOfP30Row1();
    QuarterTurnOfP30Row2();
    QuarterTurnOfP30Row3();
    MovedByRenaming(table, 29, 26, R90, [2, 3, 6, 5, 7, 1, 0, 4], [6, 5, 0, 1, 7, 3, 2, 4]);
    LayoutsDistinct(table);
    ImageIff(table, 29, R90, 26);
  }

  lemma QuarterTurnOfP30Row0()
    ensures MovedRow0(Layout(29), Layout(26), R90, [2, 3, 6, 5, 7, 1, 0, 4], [6, 5, 0, 1, 7, 3, 2, 4])
  {
  }

  lemma QuarterTurnOfP30Row1()
    ensures MovedRow1(Layout(29), Layout(26), R90, [2, 3, 6, 5, 7, 1, 0, 4], [6, 5, 0, 1, 7, 3, 2, 4])
  {
  }

  lemma QuarterTurnOfP30Row2()
    ensures MovedRow2(Layout(29), Layout(26), R90, [2, 3, 6, 5, 7, 1, 0, 4], [6, 5, 0, 1, 7, 3, 2, 4])
  {
  }

  lemma QuarterTurnOfP30Row3()
    ensures MovedRow3(Layout(29), Layout(26), R90, [2, 3, 6, 5, 7, 1, 0, 4], [6, 5, 0, 1, 7, 3, 2, 4])
  {
  }

  /** The quarter turn carries P31 onto P3, renaming block x to [1, 3, 6, 5, 7, 0, 2, 4][x]; the lookup finds P3. */
  lemma QuarterTurnOfP31(table: seq<Grid>)
    requires HasLayouts(table)
    ensures SameShape(Transform(table[30], R90), table[2])
    ensures Image(table, 30, R90) == Some(2)
  {
    QuarterTurnOfP31Row0();
    QuarterTurnOfP31Row1();
    QuarterTurnOfP31Row2();
    QuarterTurnOfP31Row3();
    MovedByRenaming(table, 30, 2, R90, [1, 3, 6, 5, 7, 0, 2, 4], [5, 0, 6, 1, 7, 3, 2, 4]);
    LayoutsDistinct(table);
    ImageIff(table, 30, R90, 2);
  }

  lemma QuarterTurnOfP31Row0()
    ensures MovedRow0(Layout(30), Layout(2), R90, [1, 3, 6, 5, 7, 0, 2, 4], [5, 0, 6, 1, 7, 3, 2, 4])
  {
  }

  lemma QuarterTurnOfP31Row1()
    ensures MovedRow1(Layout(30), Layout(2), R90, [1, 3, 6, 5, 7, 0, 2, 4], [5, 0, 6, 1, 7, 3, 2, 4])
  {
  }

  lemma QuarterTurnOfP31Row2()
    ensures MovedRow2(Layout(30), Layout(2), R90, [1, 3, 6, 5, 7, 0, 2, 4], [5, 0, 6, 1, 7, 3, 2, 4])
  {
  }

  lemma QuarterTurnOfP31Row3()
    ensures MovedRow3(Layout(30), Layout(2), R90, [1, 3, 6, 5, 7, 0, 2, 4], [5, 0, 6, 1, 7, 3, 2, 4])
  {
  }

  /** The quarter turn carries P32 onto P28, renaming block x to [2, 3, 6, 7, 1, 5, 0, 4][x]; the lookup finds P28. */
  lemma QuarterTurnOfP32(table: seq<Grid>)
    requires HasLayouts(table)
    ensures SameShape(Transform(table[31], R90), table[27])
    ensures Image(table, 31, R90) == Some(27)
  {
    QuarterTurnOfP32Row0();
    QuarterTurnOfP32Row1();
    QuarterTurnOfP32Row2();
    QuarterTurnOfP32Row3();
    MovedByRenaming(table, 31, 27, R90, [2, 3, 6, 7, 1, 5, 0, 4], [6, 4, 0, 1, 7, 5, 2, 3]);
    LayoutsDistinct(table);
    ImageIff(table, 31, R90, 27);
  }

  lemma QuarterTurnOfP32Row0()
    ensures MovedRow0(Layout(31), Layout(27), R90, [2, 3, 6, 7, 1, 5, 0, 4], [6, 4, 0, 1, 7, 5, 2, 3])
  {
  }

  lemma QuarterTurnOfP32Row1()
    ensures MovedRow1(Layout(31), Layout(27), R90, [2, 3, 6, 7, 1, 5, 0, 4], [6, 4, 0, 1, 7, 5, 2, 3])
  {
  }

  lemma QuarterTurnOfP32Row2()
    ensures MovedRow2(Layout(31), Layout(27), R90, [2, 3, 6, 7, 1, 5, 0, 4], [6, 4, 0, 1, 7, 5, 2, 3])
  {
  }

  lemma QuarterTurnOfP32Row3()
    ensures MovedRow3(Layout(31), Layout(27), R90, [2, 3, 6, 7, 1, 5, 0, 4], [6, 4, 0, 1, 7, 5, 2, 3])
  {
  }

  /** The quarter turn carries P33 onto P25, renaming block x to [2, 3, 5, 7, 1, 4, 6, 0][x]; the lookup finds P25. */
  lemma QuarterTurnOfP33(table: seq<Grid>)
    requires HasLayouts(table)
    ensures SameShape(Transform(table[32], R90), table[24])
    ensures Image(table, 32, R90) == Some(24)
  {
    QuarterTurnOfP33Row0();
    QuarterTurnOfP33Row1();
    QuarterTurnOfP33Row2();
    QuarterTurnOfP33Row3();
    MovedByRenaming(table, 32, 24, R90, [2, 3, 5, 7, 1, 4, 6, 0], [7, 4, 0, 1, 5, 2, 6, 3]);
    LayoutsDistinct(table);
    ImageIff(table, 32, R90, 24);
  }

  lemma QuarterTurnOfP33Row0()
    ensures MovedRow0(Layout(32), Layout(24), R90, [2, 3, 5, 7, 1, 4, 6, 0], [7, 4, 0, 1, 5, 2, 6, 3])
  {
  }

  lemma QuarterTurnOfP33Row1()
    ensures MovedRow1(Layout(32), Layout(24), R90, [2, 3, 5, 7, 1, 4, 6, 0], [7, 4, 0, 1, 5, 2, 6, 3])
  {
  }

  lemma QuarterTurnOfP33Row2()
    ensures MovedRow2(Layout(32), Layout(24), R90, [2, 3, 5, 7, 1, 4, 6, 0], [7, 4, 0, 1, 5, 2, 6, 3])
  {
  }

  lemma QuarterTurnOfP33Row3()
    ensures MovedRow3(Layout(32), Layout(24), R90, [2, 3, 5, 7, 1, 4, 6, 0], [7, 4, 0, 1, 5, 2, 6, 3])
  {
  }

  /** The quarter turn carries P34 onto P9, renaming block x to [1, 4, 5, 7, 0, 3, 6, 2][x]; the lookup finds P9. */
  lemma QuarterTurnOfP34(table: seq<Grid>)
    requires HasLayouts(table)
    ensures SameShape(Transform(table[33], R90), table[8])
    ensures Image(table, 33, R90) == Some(8)
  {
    QuarterTurnOfP34Row0();
    QuarterTurnOfP34Row1();
    QuarterTurnOfP34Row2();
    QuarterTurnOfP34Row3();
    MovedByRenaming(table, 33, 8, R90, [1, 4, 5, 7, 0, 3, 6, 2], [4, 0, 7, 5, 1, 2, 6, 3]);
    LayoutsDistinct(table);
    ImageIff(table, 33, R90, 8);
  }

  lemma QuarterTurnOfP34Row0()
    ensures MovedRow0(Layout(33), Layout(8), R90, [1, 4, 5, 7, 0, 3, 6, 2], [4, 0, 7, 5, 1, 2, 6, 3])
  {
  }

  lemma QuarterTurnOfP34Row1()
    ensures MovedRow1(Layout(33), Layout(8), R90, [1, 4, 5, 7, 0, 3, 6, 2], [4, 0, 7, 5, 1, 2, 6, 3])
  {
  }

  lemma QuarterTurnOfP34Row2()
    ensures MovedRow2(Layout(33), Layout(8), R90, [1, 4, 5, 7, 0, 3, 6, 2], [4, 0, 7, 5, 1, 2, 6, 3])
  {
  }

  lemma QuarterTurnOfP34Row3()
    ensures MovedRow3(Layout(33), Layout(8), R90, [1, 4, 5, 7, 0, 3, 6, 2], [4, 0, 7, 5, 1, 2, 6, 3])
  {
  }

  /** The quarter turn carries P35 onto P4, renaming block x to [1, 3, 6, 7, 0, 2, 5, 4][x]; the lookup finds P4. */
  lemma QuarterTurnOfP35(table: seq<Grid>)
    requires HasLayouts(table)
    ensures SameShape(Transform(table[34], R90), table[3])
    ensures Image(table, 34, R90) == Some(3)
  {
    QuarterTurnOfP35Row0();
    QuarterTurnOfP35Row1();
    QuarterTurnOfP35Row2();
    QuarterTurnOfP35Row3();
    MovedByRenaming(table, 34, 3, R90, [1, 3, 6, 7, 0, 2, 5, 4], [4, 0, 5, 1, 7, 6, 2, 3]);
    LayoutsDistinct(table);
    ImageIff(table, 34, R90, 3);
  }

  lemma QuarterTurnOfP35Row0()
    ensures MovedRow0(Layout(34), Layout(3), R90, [1, 3, 6, 7, 0, 2, 5, 4], [4, 0, 5, 1, 7, 6, 2, 3])
  {
  }

  lemma QuarterTurnOfP35Row1()
    ensures MovedRow1(Layout(34), Layout(3), R90, [1, 3, 6, 7, 0, 2, 5, 4], [4, 0, 5, 1, 7, 6, 2, 3])
  {
  }

  lemma QuarterTurnOfP35Row2()
    ensures MovedRow2(Layout(34), Layout(3), R90, [1, 3, 6, 7, 0, 2, 5, 4], [4, 0, 5, 1, 7, 6, 2, 3])
  {
  }

  lemma QuarterTurnOfP35Row3()
    ensures MovedRow3(Layout(34), Layout(3), R90, [1, 3, 6, 7, 0, 2, 5, 4], [4, 0, 5, 1, 7, 6, 2, 3])
  {
  }

  /** The quarter turn carries P36 onto P1, renaming block x to [1, 3, 5, 7, 0, 2, 4, 6][x]; the lookup finds P1. */
  lemma QuarterTurnOfP36(table: seq<Grid>)
    requires HasLayouts(table)
    ensures SameShape(Transform(table[35], R90), table[0])
    ensures Image(table, 35, R90) == Some(0)
  {
    QuarterTurnOfP36Row0();
    QuarterTurnOfP36Row1();
    QuarterTurnOfP36Row2();
    QuarterTurnOfP36Row3();
    MovedByRenaming(table, 35, 0, R90, [1, 3, 5, 7, 0, 2, 4, 6], [4, 0, 5, 1, 6, 2, 7, 3]);
    LayoutsDistinct(table);
    ImageIff(table, 35, R90, 0);
  }

  lemma QuarterTurnOfP36Row0()
    ensures MovedRow0(Layout(35), Layout(0), R90, [1, 3, 5, 7, 0, 2, 4, 6], [4, 0, 5, 1, 6, 2, 7, 3])
  {
  }

  lemma QuarterTurnOfP36Row1()
    ensures MovedRow1(Layout(35), Layout(0), R90, [1, 3, 5, 7, 0, 2, 4, 6], [4, 0, 5, 1, 6, 2, 7, 3])
  {
  }

  lemma QuarterTurnOfP36Row2()
    ensures MovedRow2(Layout(35), Layout(0), R90, [1, 3, 5, 7, 0, 2, 4, 6], [4, 0, 5, 1, 6, 2, 7, 3])
  {
  }

  lemma QuarterTurnOfP36Row3()
    ensures MovedRow3(Layout(35), Layout(0), R90, [1, 3, 5, 7, 0, 2, 4, 6], [4, 0, 5, 1, 6, 2, 7, 3])
  {
  }

  /** The vertical flip carries P1 onto P1, renaming block x to [1, 0, 3, 2, 5, 4, 7, 6][x]; the lookup finds P1. */
  lemma VerticalFlipOfP1(table: seq<Grid>)
    requires HasLayouts(table)
    ensures SameShape(Transform(table[0], SV), table[0])
    ensures Image(table, 0, SV) == Some(0)
  {
    VerticalFlipOfP1Row0();
    VerticalFlipOfP1Row1();
    VerticalFlipOfP1Row2();
    VerticalFlipOfP1Row3();
    MovedByRenaming(table, 0, 0, SV, [1, 0, 3, 2, 5, 4, 7, 6], [1, 0, 3, 2, 5, 4, 7, 6]);
    LayoutsDistinct(table);
    ImageIff(table, 0, SV, 0);
  }

  lemma VerticalFlipOfP1Row0()
    ensures MovedRow0(Layout(0), Layout(0), SV, [1, 0, 3, 2, 5, 4, 7, 6], [1, 0, 3, 2, 5, 4, 7, 6])
  {
  }

  lemma VerticalFlipOfP1Row1()
    ensures MovedRow1(Layout(0), Layout(0), SV, [1, 0, 3, 2, 5, 4, 7, 6], [1, 0, 3, 2, 5, 4, 7, 6])
  {
  }

  lemma VerticalFlipOfP1Row2()
    ensures MovedRow2(Layout(0), Layout(0), SV, [1, 0, 3, 2, 5, 4, 7, 6], [1, 0, 3, 2, 5, 4, 7, 6])
  {
  }

  lemma VerticalFlipOfP1Row3()
    ensures MovedRow3(Layout(0), Layout(0), SV, [1, 0, 3, 2, 5, 4, 7, 6], [1, 0, 3, 2, 5, 4, 7, 6])
  {
  }

  /** The vertical flip carries P2 onto P4, renaming block x to [1, 0, 3, 2, 6, 5, 4, 7][x]; the lookup finds P4. */
  lemma VerticalFlipOfP2(table: seq<Grid>)
    requires HasLayouts(table)
    ensures SameShape(Transform(table[1], SV), table[3])
    ensures Image(table, 1, SV) == Some(3)
  {
    VerticalFlipOfP2Row0();
    VerticalFlipOfP2Row1();
    VerticalFlipOfP2Row2();
    VerticalFlipOfP2Row3();
    MovedByRenaming(table, 1, 3, SV, [1, 0, 3, 2, 6, 5, 4, 7], [1, 0, 3, 2, 6, 5, 4, 7]);
    LayoutsDistinct(table);
    ImageIff(table, 1, SV, 3);
  }

  lemma VerticalFlipOfP2Row0()
    ensures MovedRow0(Layout(1), Layout(3), SV, [1, 0, 3, 2, 6, 5, 4, 7], [1, 0, 3, 2, 6, 5, 4, 7])
  {
  }

  lemma VerticalFlipOfP2Row1()
    ensures MovedRow1(Layout(1), Layout(3), SV, [1, 0, 3, 2, 6, 5, 4, 7], [1, 0, 3, 2, 6, 5, 4, 7])
  {
  }

  lemma VerticalFlipOfP2Row2()
    ensures MovedRow2(Layout(1), Layout(3), SV, [1, 0, 3, 2, 6, 5, 4, 7], [1, 0, 3, 2, 6, 5, 4, 7])
  {
  }

  lemma VerticalFlipOfP2Row3()
    ensures MovedRow3(Layout(1), Layout(3), SV, [1, 0, 3, 2, 6, 5, 4, 7], [1, 0, 3, 2, 6, 5, 4, 7])
  {
  }

  /** The vertical flip carries P3 onto P3, renaming block x to [1, 0, 3, 2, 6, 5, 4, 7][x]; the lookup finds P3. */
  lemma VerticalFlipOfP3(table: seq<Grid>)
    requires HasLayouts(table)
    ensures SameShape(Transform(table[2], SV), table[2])
    ensures Image(table, 2, SV) == Some(2)
  {
    VerticalFlipOfP3Row0();
    VerticalFlipOfP3Row1();
    VerticalFlipOfP3Row2();
    VerticalFlipOfP3Row3();
    MovedByRenaming(table, 2, 2, SV, [1, 0, 3, 2, 6, 5, 4, 7], [1, 0, 3, 2, 6, 5, 4, 7]);
    LayoutsDistinct(table);
    ImageIff(table, 2, SV, 2);
  }

  lemma VerticalFlipOfP3Row0()
    ensures MovedRow0(Layout(2), Layout(2), SV, [1, 0, 3, 2, 6, 5, 4, 7], [1, 0, 3, 2, 6, 5, 4, 7])
  {
  }

  lemma VerticalFlipOfP3Row1()
    ensures MovedRow1(Layout(2), Layout(2), SV, [1, 0, 3, 2, 6, 5, 4, 7], [1, 0, 3, 2, 6, 5, 4, 7])
  {
  }

  lemma VerticalFlipOfP3Row2()
    ensures MovedRow2(Layout(2), Layout(2), SV, [1, 0, 3, 2, 6, 5, 4, 7], [1, 0, 3, 2, 6, 5, 4, 7])
  {
  }

  lemma VerticalFlipOfP3Row3()
    ensures MovedRow3(Layout(2), Layout(2), SV, [1, 0, 3, 2, 6, 5, 4, 7], [1, 0, 3, 2, 6, 5, 4, 7])
  {
  }

  /** The vertical flip carries P4 onto P2, renaming block x to [1, 0, 3, 2, 6, 5, 4, 7][x]; the lookup finds P2. */
  lemma VerticalFlipOfP4(table: seq<Grid>)
    requires HasLayouts(table)
    ensures SameShape(Transform(table[3], SV), table[1])
    ensures Image(table, 3, SV) == Some(1)
  {
    VerticalFlipOfP4Row0();
    VerticalFlipOfP4Row1();
    VerticalFlipOfP4Row2();
    VerticalFlipOfP4Row3();
    MovedByRenaming(table, 3, 1, SV, [1, 0, 3, 2, 6, 5, 4, 7], [1, 0, 3, 2, 6, 5, 4, 7]);
    LayoutsDistinct(table);
    ImageIff(table, 3, SV, 1);
  }

  lemma VerticalFlipOfP4Row0()
    ensures MovedRow0(Layout(3), Layout(1), SV, [1, 0, 3, 2, 6, 5, 4, 7], [1, 0, 3, 2, 6, 5, 4, 7])
  {
  }

  lemma VerticalFlipOfP4Row1()
    ensures MovedRow1(Layout(3), Layout(1), SV, [1, 0, 3, 2, 6, 5, 4, 7], [1, 0, 3, 2, 6, 5, 4, 7])
  {
  }

  lemma VerticalFlipOfP4Row2()
    ensures MovedRow2(Layout(3), Layout(1), SV, [1, 0, 3, 2, 6, 5, 4, 7], [1, 0, 3, 2, 6, 5, 4, 7])
  {
  }

  lemma VerticalFlipOfP4Row3()
    ensures MovedRow3(Layout(3), Layout(1), SV, [1, 0, 3, 2, 6, 5, 4, 7], [1, 0, 3, 2, 6, 5, 4, 7])
  {
  }

  /** The vertical flip carries P5 onto P5, renaming block x to [1, 0, 3, 2, 7, 6, 5, 4][x]; the lookup finds P5. */
  lemma VerticalFlipOfP5(table: seq<Grid>)
    requires HasLayouts(table)
    ensures SameShape(Transform(table[4], SV), table[4])
    ensures Image(table, 4, SV) == Some(4)
  {
    VerticalFlipOfP5Row0();
    VerticalFlipOfP5Row1();
    VerticalFlipOfP5Row2();
    VerticalFlipOfP5Row3();
    MovedByRenaming(table, 4, 4, SV, [1, 0, 3, 2, 7, 6, 5, 4], [1, 0, 3, 2, 7, 6, 5, 4]);
    LayoutsDistinct(table);
    ImageIff(table, 4, SV, 4);
  }

  lemma VerticalFlipOfP5Row0()
    ensures MovedRow0(Layout(4), Layout(4), SV, [1, 0, 3, 2, 7, 6, 5, 4], [1, 0, 3, 2, 7, 6, 5, 4])
  {
  }

  lemma VerticalFlipOfP5Row1()
    ensures MovedRow1(Layout(4), Layout(4), SV, [1, 0, 3, 2, 7, 6, 5, 4], [1, 0, 3, 2, 7, 6, 5, 4])
  {
  }

  lemma VerticalFlipOfP5Row2()
    ensures MovedRow2(Layout(4), Layout(4), SV, [1, 0, 3, 2, 7, 6, 5, 4], [1, 0, 3, 2, 7, 6, 5, 4])
  {
  }

  lemma VerticalFlipOfP5Row3()
    ensures MovedRow3(Layout(4), Layout(4), SV, [1, 0, 3, 2, 7, 6, 5, 4], [1, 0, 3, 2, 7, 6, 5, 4])
  {
  }

  /** The vertical flip carries P6 onto P9, renaming block x to [1, 0, 4, 3, 2, 5, 7, 6][x]; the lookup finds P9. */
  lemma VerticalFlipOfP6(table: seq<Grid>)
    requires HasLayouts(table)
    ensures SameShape(Transform(table[5], SV), table[8])
    ensures Image(table, 5, SV) == Some(8)
  {
    VerticalFlipOfP6Row0();
    VerticalFlipOfP6Row1();
    VerticalFlipOfP6Row2();
    VerticalFlipOfP6Row3();
    MovedByRenaming(table, 5, 8, SV, [1, 0, 4, 3, 2, 5, 7, 6], [1, 0, 4, 3, 2, 5, 7, 6]);
    LayoutsDistinct(table);
    ImageIff(table, 5, SV, 8);
  }

  lemma VerticalFlipOfP6Row0()
    ensures MovedRow0(Layout(5), Layout(8), SV, [1, 0, 4, 3, 2, 5, 7, 6], [1, 0, 4, 3, 2, 5, 7, 6])
  {
  }

  lemma VerticalFlipOfP6Row1()
    ensures MovedRow1(Layout(5), Layout(8), SV, [1, 0, 4, 3, 2, 5, 7, 6], [1, 0, 4, 3, 2, 5, 7, 6])
  {
  }

  lemma VerticalFlipOfP6Row2()
    ensures MovedRow2(Layout(5), Layout(8), SV, [1, 0, 4, 3, 2, 5, 7, 6], [1, 0, 4, 3, 2, 5, 7, 6])
  {
  }

  lemma VerticalFlipOfP6Row3()
    ensures MovedRow3(Layout(5), Layout(8), SV, [1, 0, 4, 3, 2, 5, 7, 6], [1, 0, 4, 3, 2, 5, 7, 6])
  {
  }

  /** The vertical flip carries P7 onto P10, renaming block x to [1, 0, 4, 3, 2, 6, 5, 7][x]; the lookup finds P10. */
  lemma VerticalFlipOfP7(table: seq<Grid>)
    requires HasLayouts(table)
    ensures SameShape(Transform(table[6], SV), table[9])
    ensures Image(table, 6, SV) == Some(9)
  {
    VerticalFlipOfP7Row0();
    VerticalFlipOfP7Row1();
    VerticalFlipOfP7Row2();
    VerticalFlipOfP7Row3();
    MovedByRenaming(table, 6, 9, SV, [1, 0, 4, 3, 2, 6, 5, 7], [1, 0, 4, 3, 2, 6, 5, 7]);
    LayoutsDistinct(table);
    ImageIff(table, 6, SV, 9);
  }

  lemma VerticalFlipOfP7Row0()
    ensures MovedRow0(Layout(6), Layout(9), SV, [1, 0, 4, 3, 2, 6, 5, 7], [1, 0, 4, 3, 2, 6, 5, 7])
  {
  }

  lemma VerticalFlipOfP7Row1()
    ensures MovedRow1(Layout(6), Layout(9), SV, [1, 0, 4, 3, 2, 6, 5, 7], [1, 0, 4, 3, 2, 6, 5, 7])
  {
  }

  lemma VerticalFlipOfP7Row2()
    ensures MovedRow2(Layout(6), Layout(9), SV, [1, 0, 4, 3, 2, 6, 5, 7], [1, 0, 4, 3, 2, 6, 5, 7])
  {
  }

  lemma VerticalFlipOfP7Row3()
    ensures MovedRow3(Layout(6), Layout(9), SV, [1, 0, 4, 3, 2, 6, 5, 7], [1, 0, 4, 3, 2, 6, 5, 7])
  {
  }

  /** The vertical flip carries P8 onto P8, renaming block x to [1, 0, 4, 3, 2, 5, 7, 6][x]; the lookup finds P8. */
  lemma VerticalFlipOfP8(table: seq<Grid>)
    requires HasLayouts(table)
    ensures SameShape(Transform(table[7], SV), table[7])
    ensures Image(table, 7, SV) == Some(7)
  {
    VerticalFlipOfP8Row0();
    VerticalFlipOfP8Row1();
    VerticalFlipOfP8Row2();
    VerticalFlipOfP8Row3();
    MovedByRenaming(table, 7, 7, SV, [1, 0, 4, 3, 2, 5, 7, 6], [1, 0, 4, 3, 2, 5, 7, 6]);
    LayoutsDistinct(table);
    ImageIff(table, 7, SV, 7);
  }

  lemma VerticalFlipOfP8Row0()
    ensures MovedRow0(Layout(7), Layout(7), SV, [1, 0, 4, 3, 2, 5, 7, 6], [1, 0, 4, 3, 2, 5, 7, 6])
  {
  }

  lemma VerticalFlipOfP8Row1()
    ensures MovedRow1(Layout(7), Layout(7), SV, [1, 0, 4, 3, 2, 5, 7, 6], [1, 0, 4, 3, 2, 5, 7, 6])
  {
  }

  lemma VerticalFlipOfP8Row2()
    ensures MovedRow2(Layout(7), Layout(7), SV, [1, 0, 4, 3, 2, 5, 7, 6], [1, 0, 4, 3, 2, 5, 7, 6])
  {
  }

  lemma VerticalFlipOfP8Row3()
    ensures MovedRow3(Layout(7), Layout(7), SV, [1, 0, 4, 3, 2, 5, 7, 6], [1, 0, 4, 3, 2, 5, 7, 6])
  {
  }

  /** The vertical flip carries P9 onto P6, renaming block x to [1, 0, 4, 3, 2, 5, 7, 6][x]; the lookup finds P6. */
  lemma VerticalFlipOfP9(table: seq<Grid>)
    requires HasLayouts(table)
    ensures SameShape(Transform(table[8], SV), table[5])
    ensures Image(table, 8, SV) == Some(5)
  {
    VerticalFlipOfP9Row0();
    VerticalFlipOfP9Row1();
    VerticalFlipOfP9Row2();
    VerticalFlipOfP9Row3();
    MovedByRenaming(table, 8, 5, SV, [1, 0, 4, 3, 2, 5, 7, 6], [1, 0, 4, 3, 2, 5, 7, 6]);
    LayoutsDistinct(table);
    ImageIff(table, 8, SV, 5);
  }

  lemma VerticalFlipOfP9Row0()
    ensures MovedRow0(Layout(8), Layout(5), SV, [1, 0, 4, 3, 2, 5, 7, 6], [1, 0, 4, 3, 2, 5, 7, 6])
  {
  }

  lemma VerticalFlipOfP9Row1()
    ensures MovedRow1(Layout(8), Layout(5), SV, [1, 0, 4, 3, 2, 5, 7, 6], [1, 0, 4, 3, 2, 5, 7, 6])
  {
  }

  lemma VerticalFlipOfP9Row2()
    ensures MovedRow2(Layout(8), Layout(5), SV, [1, 0, 4, 3, 2, 5, 7, 6], [1, 0, 4, 3, 2, 5, 7, 6])
  {
  }

  lemma VerticalFlipOfP9Row3()
    ensures MovedRow3(Layout(8), Layout(5), SV, [1, 0, 4, 3, 2, 5, 7, 6], [1, 0, 4, 3, 2, 5, 7, 6])
  {
  }

  /** The vertical flip carries P10 onto P7, renaming block x to [1, 0, 4, 3, 2, 6, 5, 7][x]; the lookup finds P7. */
  lemma VerticalFlipOfP10(table: seq<Grid>)
    requires HasLayouts(table)
    ensures SameShape(Transform(table[9], SV), table[6])
    ensures Image(table, 9, SV) == Some(6)
  {
    VerticalFlipOfP10Row0();
    VerticalFlipOfP10Row1();
    VerticalFlipOfP10Row2();
    VerticalFlipOfP10Row3();
    MovedByRenaming(table, 9, 6, SV, [1, 0, 4, 3, 2, 6, 5, 7], [1, 0, 4, 3, 2, 6, 5, 7]);
    LayoutsDistinct(table);
    ImageIff(table, 9, SV, 6);
  }

  lemma VerticalFlipOfP10Row0()
    ensures MovedRow0(Layout(9), Layout(6), SV, [1, 0, 4, 3, 2, 6, 5, 7], [1, 0, 4, 3, 2, 6, 5, 7])
  {
  }

  lemma VerticalFlipOfP10Row1()
    ensures MovedRow1(Layout(9), Layout(6), SV, [1, 0, 4, 3, 2, 6, 5, 7], [1, 0, 4, 3, 2, 6, 5, 7])
  {
  }

  lemma VerticalFlipOfP10Row2()
    ensures MovedRow2(Layout(9), Layout(6), SV, [1, 0, 4, 3, 2, 6, 5, 7], [1, 0, 4, 3, 2, 6, 5, 7])
  {
  }

  lemma VerticalFlipOfP10Row3()
    ensures MovedRow3(Layout(9), Layout(6), SV, [1, 0, 4, 3, 2, 6, 5, 7], [1, 0, 4, 3, 2, 6, 5, 7])
  {
  }

  /** The vertical flip carries P11 onto P11, renaming block x to [1, 0, 5, 4, 3, 2, 7, 6][x]; the lookup finds P11. */
  lemma VerticalFlipOfP11(table: seq<Grid>)
    requires HasLayouts(table)
    ensures SameShape(Transform(table[10], SV), table[10])
    ensures Image(table, 10, SV) == Some(10)
  {
    VerticalFlipOfP11Row0();
    VerticalFlipOfP11Row1();
    VerticalFlipOfP11Row2();
    VerticalFlipOfP11Row3();
    MovedByRenaming(table, 10, 10, SV, [1, 0, 5, 4, 3, 2, 7, 6], [1, 0, 5, 4, 3, 2, 7, 6]);
    LayoutsDistinct(table);
    ImageIff(table, 10, SV, 10);
  }

  lemma VerticalFlipOfP11Row0()
    ensures MovedRow0(Layout(10), Layout(10), SV, [1, 0, 5, 4, 3, 2, 7, 6], [1, 0, 5, 4, 3, 2, 7, 6])
  {
  }

  lemma VerticalFlipOfP11Row1()
    ensures MovedRow1(Layout(10), Layout(10), SV, [1, 0, 5, 4, 3, 2, 7, 6], [1, 0, 5, 4, 3, 2, 7, 6])
  {
  }

  lemma VerticalFlipOfP11Row2()
    ensures MovedRow2(Layout(10), Layout(10), SV, [1, 0, 5, 4, 3, 2, 7, 6], [1, 0, 5, 4, 3, 2, 7, 6])
  {
  }

  lemma VerticalFlipOfP11Row3()
    ensures MovedRow3(Layout(10), Layout(10), SV, [1, 0, 5, 4, 3, 2, 7, 6], [1, 0, 5, 4, 3, 2, 7, 6])
  {
  }

  /** The vertical flip carries P12 onto P25, renaming block x to [2, 1, 0, 3, 5, 4, 7, 6][x]; the lookup finds P25. */
  lemma VerticalFlipOfP12(table: seq<Grid>)
    requires HasLayouts(table)
    ensures SameShape(Transform(table[11], SV), table[24])
    ensures Image(table, 11, SV) == Some(24)
  {
    VerticalFlipOfP12Row0();
    VerticalFlipOfP12Row1();
    VerticalFlipOfP12Row2();
    VerticalFlipOfP12Row3();
    MovedByRenaming(table, 11, 24, SV, [2, 1, 0, 3, 5, 4, 7, 6], [2, 1, 0, 3, 5, 4, 7, 6]);
    LayoutsDistinct(table);
    ImageIff(table, 11, SV, 24);
  }

  lemma VerticalFlipOfP12Row0()
    ensures MovedRow0(Layout(11), Layout(24), SV, [2, 1, 0, 3, 5, 4, 7, 6], [2, 1, 0, 3, 5, 4, 7, 6])
  {
  }

  lemma VerticalFlipOfP12Row1()
    ensures MovedRow1(Layout(11), Layout(24), SV, [2, 1, 0, 3, 5, 4, 7, 6], [2, 1, 0, 3, 5, 4, 7, 6])
  {
  }

  lemma VerticalFlipOfP12Row2()
    ensures MovedRow2(Layout(11), Layout(24), SV, [2, 1, 0, 3, 5, 4, 7, 6], [2, 1, 0, 3, 5, 4, 7, 6])
  {
  }

  lemma VerticalFlipOfP12Row3()
    ensures MovedRow3(Layout(11), Layout(24), SV, [2, 1, 0, 3, 5, 4, 7, 6], [2, 1, 0, 3, 5, 4, 7, 6])
  {
  }

  /** The vertical flip carries P13 onto P28, renaming block x to [2, 1, 0, 3, 6, 5, 4, 7][x]; the lookup finds P28. */
  lemma VerticalFlipOfP13(table: seq<Grid>)
    requires HasLayouts(table)
    ensures SameShape(Transform(table[12], SV), table[27])
    ensures Image(table, 12, SV) == Some(27)
  {
    VerticalFlipOfP13Row0();
    VerticalFlipOfP13Row1();
    VerticalFlipOfP13Row2();
    VerticalFlipOfP13Row3();
    MovedByRenaming(table, 12, 27, SV, [2, 1, 0, 3, 6, 5, 4, 7], [2, 1, 0, 3, 6, 5, 4, 7]);
    LayoutsDistinct(table);
    ImageIff(table, 12, SV, 27);
  }

  lemma VerticalFlipOfP13Row0()
    ensures MovedRow0(Layout(12), Layout(27), SV, [2, 1, 0, 3, 6, 5, 4, 7], [2, 1, 0, 3, 6, 5, 4, 7])
  {
  }

  lemma VerticalFlipOfP13Row1()
    ensures MovedRow1(Layout(12), Layout(27), SV, [2, 1, 0, 3, 6, 5, 4, 7], [2, 1, 0, 3, 6, 5, 4, 7])
  {
  }

  lemma VerticalFlipOfP13Row2()
    ensures MovedRow2(Layout(12), Layout(27), SV, [2, 1, 0, 3, 6, 5, 4, 7], [2, 1, 0, 3, 6, 5, 4, 7])
  {
  }

  lemma VerticalFlipOfP13Row3()
    ensures MovedRow3(Layout(12), Layout(27), SV, [2, 1, 0, 3, 6, 5, 4, 7], [2, 1, 0, 3, 6, 5, 4, 7])
  {
  }

  /** The vertical flip carries P14 onto P27, renaming block x to [2, 1, 0, 3, 6, 5, 4, 7][x]; the lookup finds P27. */
  lemma VerticalFlipOfP14(table: seq<Grid>)
    requires HasLayouts(table)
    ensures SameShape(Transform(table[13], SV), table[26])
    ensures Image(table, 13, SV) == Some(26)
  {
    VerticalFlipOfP14Row0();
    VerticalFlipOfP14Row1();
    VerticalFlipOfP14Row2();
    VerticalFlipOfP14Row3();
    MovedByRenaming(table, 13, 26, SV, [2, 1, 0, 3, 6, 5, 4, 7], [2, 1, 0, 3, 6, 5, 4, 7]);
    LayoutsDistinct(table);
    ImageIff(table, 13, SV, 26);
  }

  lemma VerticalFlipOfP14Row0()
    ensures MovedRow0(Layout(13), Layout(26), SV, [2, 1, 0, 3, 6, 5, 4, 7], [2, 1, 0, 3, 6, 5, 4, 7])
  {
  }

  lemma VerticalFlipOfP14Row1()
    ensures MovedRow1(Layout(13), Layout(26), SV, [2, 1, 0, 3, 6, 5, 4, 7], [2, 1, 0, 3, 6, 5, 4, 7])
  {
  }

  lemma VerticalFlipOfP14Row2()
    ensures MovedRow2(Layout(13), Layout(26), SV, [2, 1, 0, 3, 6, 5, 4, 7], [2, 1, 0, 3, 6, 5, 4, 7])
  {
  }

  lemma VerticalFlipOfP14Row3()
    ensures MovedRow3(Layout(13), Layout(26), SV, [2, 1, 0, 3, 6, 5, 4, 7], [2, 1, 0, 3, 6, 5, 4, 7])
  {
  }

  /** The vertical flip carries P15 onto P26, renaming block x to [2, 1, 0, 3, 6, 5, 4, 7][x]; the lookup finds P26. */
  lemma VerticalFlipOfP15(table: seq<Grid>)
    requires HasLayouts(table)
    ensures SameShape(Transform(table[14], SV), table[25])
    ensures Image(table, 14, SV) == Some(25)
  {
    VerticalFlipOfP15Row0();
    VerticalFlipOfP15Row1();
    VerticalFlipOfP15Row2();
    VerticalFlipOfP15Row3();
    MovedByRenaming(table, 14, 25, SV, [2, 1, 0, 3, 6, 5, 4, 7], [2, 1, 0, 3, 6, 5, 4, 7]);
    LayoutsDistinct(table);
    ImageIff(table, 14, SV, 25);
  }

  lemma VerticalFlipOfP15Row0()
    ensures MovedRow0(Layout(14), Layout(25), SV, [2, 1, 0, 3, 6, 5, 4, 7], [2, 1, 0, 3, 6, 5, 4, 7])
  {
  }

  lemma VerticalFlipOfP15Row1()
    ensures MovedRow1(Layout(14), Layout(25), SV, [2, 1, 0, 3, 6, 5, 4, 7], [2, 1, 0, 3, 6, 5, 4, 7])
  {
  }

  lemma VerticalFlipOfP15Row2()
    ensures MovedRow2(Layout(14), Layout(25), SV, [2, 1, 0, 3, 6, 5, 4, 7], [2, 1, 0, 3, 6, 5, 4, 7])
  {
  }

  lemma VerticalFlipOfP15Row3()
    ensures MovedRow3(Layout(14), Layout(25), SV, [2, 1, 0, 3, 6, 5, 4, 7], [2, 1, 0, 3, 6, 5, 4, 7])
  {
  }

  /** The vertical flip carries P16 onto P29, renaming block x to [2, 1, 0, 3, 7, 6, 5, 4][x]; the lookup finds P29. */
  lemma VerticalFlipOfP16(table: seq<Grid>)
    requires HasLayouts(table)
    ensures SameShape(Transform(table[15], SV), table[28])
    ensures Image(table, 15, SV) == Some(28)
  {
    VerticalFlipOfP16Row0();
    VerticalFlipOfP16Row1();
    VerticalFlipOfP16Row2();
    VerticalFlipOfP16Row3();
    MovedByRenaming(table, 15, 28, SV, [2, 1, 0, 3, 7, 6, 5, 4], [2, 1, 0, 3, 7, 6, 5, 4]);
    LayoutsDistinct(table);
    ImageIff(table, 15, SV, 28);
  }

  lemma VerticalFlipOfP16Row0()
    ensures MovedRow0(Layout(15), Layout(28), SV, [2, 1, 0, 3, 7, 6, 5, 4], [2, 1, 0, 3, 7, 6, 5, 4])
  {
  }

  lemma VerticalFlipOfP16Row1()
    ensures MovedRow1(Layout(15), Layout(28), SV, [2, 1, 0, 3, 7, 6, 5, 4], [2, 1, 0, 3, 7, 6, 5, 4])
  {
  }

  lemma VerticalFlipOfP16Row2()
    ensures MovedRow2(Layout(15), Layout(28), SV, [2, 1, 0, 3, 7, 6, 5, 4], [2, 1, 0, 3, 7, 6, 5, 4])
  {
  }

  lemma VerticalFlipOfP16Row3()
    ensures MovedRow3(Layout(15), Layout(28), SV, [2, 1, 0, 3, 7, 6, 5, 4], [2, 1, 0, 3, 7, 6, 5, 4])
  {
  }

  /** The vertical flip carries P17 onto P30, renaming block x to [2, 1, 0, 4, 3, 5, 7, 6][x]; the lookup finds P30. */
  lemma VerticalFlipOfP17(table: seq<Grid>)
    requires HasLayouts(table)
    ensures SameShape(Transform(table[16], SV), table[29])
    ensures Image(table, 16, SV) == Some(29)
  {
    VerticalFlipOfP17Row0();
    VerticalFlipOfP17Row1();
    VerticalFlipOfP17Row2();
    VerticalFlipOfP17Row3();
    MovedByRenaming(table, 16, 29, SV, [2, 1, 0, 4, 3, 5, 7, 6], [2, 1, 0, 4, 3, 5, 7, 6]);
    LayoutsDistinct(table);
    ImageIff(table, 16, SV, 29);
  }

  lemma VerticalFlipOfP17Row0()
    ensures MovedRow0(Layout(16), Layout(29), SV, [2, 1, 0, 4, 3, 5, 7, 6], [2, 1, 0, 4, 3, 5, 7, 6])
  {
  }

  lemma VerticalFlipOfP17Row1()
    ensures MovedRow1(Layout(16), Layout(29), SV, [2, 1, 0, 4, 3, 5, 7, 6], [2, 1, 0, 4, 3, 5, 7, 6])
  {
  }

  lemma VerticalFlipOfP17Row2()
    ensures MovedRow2(Layout(16), Layout(29), SV, [2, 1, 0, 4, 3, 5, 7, 6], [2, 1, 0, 4, 3, 5, 7, 6])
  {
  }

  lemma VerticalFlipOfP17Row3()
    ensures MovedRow3(Layout(16), Layout(29), SV, [2, 1, 0, 4, 3, 5, 7, 6], [2, 1, 0, 4, 3, 5, 7, 6])
  {
  }

  /** The vertical flip carries P18 onto P31, renaming block x to [2, 1, 0, 4, 3, 6, 5, 7][x]; the lookup finds P31. */
  lemma VerticalFlipOfP18(table: seq<Grid>)
    requires HasLayouts(table)
    ensures SameShape(Transform(table[17], SV), table[30])
    ensures Image(table, 17, SV) == Some(30)
  {
    VerticalFlipOfP18Row0();
    VerticalFlipOfP18Row1();
    VerticalFlipOfP18Row2();
    VerticalFlipOfP18Row3();
    MovedByRenaming(table, 17, 30, SV, [2, 1, 0, 4, 3, 6, 5, 7], [2, 1, 0, 4, 3, 6, 5, 7]);
    LayoutsDistinct(table);
    ImageIff(table, 17, SV, 30);
  }

  lemma VerticalFlipOfP18Row0()
    ensures MovedRow0(Layout(17), Layout(30), SV, [2, 1, 0, 4, 3, 6, 5, 7], [2, 1, 0, 4, 3, 6, 5, 7])
  {
  }

  lemma VerticalFlipOfP18Row1()
    ensures MovedRow1(Layout(17), Layout(30), SV, [2, 1, 0, 4, 3, 6, 5, 7], [2, 1, 0, 4, 3, 6, 5, 7])
  {
  }

  lemma VerticalFlipOfP18Row2()
    ensures MovedRow2(Layout(17), Layout(30), SV, [2, 1, 0, 4, 3, 6, 5, 7], [2, 1, 0, 4, 3, 6, 5, 7])
  {
  }

  lemma VerticalFlipOfP18Row3()
    ensures MovedRow3(Layout(17), Layout(30), SV, [2, 1, 0, 4, 3, 6, 5, 7], [2, 1, 0, 4, 3, 6, 5, 7])
  {
  }

  /** The vertical flip carries P19 onto P19, renaming block x to [2, 1, 0, 3, 5, 4, 7, 6][x]; the lookup finds P19. */
  lemma VerticalFlipOfP19(table: seq<Grid>)
    requires HasLayouts(table)
    ensures SameShape(Transform(table[18], SV), table[18])
    ensures Image(table, 18, SV) == Some(18)
  {
    VerticalFlipOfP19Row0();
    VerticalFlipOfP19Row1();
    VerticalFlipOfP19Row2();
    VerticalFlipOfP19Row3();
    MovedByRenaming(table, 18, 18, SV, [2, 1, 0, 3, 5, 4, 7, 6], [2, 1, 0, 3, 5, 4, 7, 6]);
    LayoutsDistinct(table);
    ImageIff(table, 18, SV, 18);
  }

  lemma VerticalFlipOfP19Row0()
    ensures MovedRow0(Layout(18), Layout(18), SV, [2, 1, 0, 3, 5, 4, 7, 6], [2, 1, 0, 3, 5, 4, 7, 6])
  {
  }

  lemma VerticalFlipOfP19Row1()
    ensures MovedRow1(Layout(18), Layout(18), SV, [2, 1, 0, 3, 5, 4, 7, 6], [2, 1, 0, 3, 5, 4, 7, 6])
  {
  }

  lemma VerticalFlipOfP19Row2()
    ensures MovedRow2(Layout(18), Layout(18), SV, [2, 1, 0, 3, 5, 4, 7, 6], [2, 1, 0, 3, 5, 4, 7, 6])
  {
  }

  lemma VerticalFlipOfP19Row3()
    ensures MovedRow3(Layout(18), Layout(18), SV, [2, 1, 0, 3, 5, 4, 7, 6], [2, 1, 0, 3, 5, 4, 7, 6])
  {
  }

  /** The vertical flip carries P20 onto P22, renaming block x to [2, 1, 0, 3, 6, 5, 4, 7][x]; the lookup finds P22. */
  lemma VerticalFlipOfP20(table: seq<Grid>)
    requires HasLayouts(table)
    ensures SameShape(Transform(table[19], SV), table[21])
    ensures Image(table, 19, SV) == Some(21)
  {
    VerticalFlipOfP20Row0();
    VerticalFlipOfP20Row1();
    VerticalFlipOfP20Row2();
    VerticalFlipOfP20Row3();
    MovedByRenaming(table, 19, 21, SV, [2, 1, 0, 3, 6, 5, 4, 7], [2, 1, 0, 3, 6, 5, 4, 7]);
    LayoutsDistinct(table);
    ImageIff(table, 19, SV, 21);
  }

  lemma VerticalFlipOfP20Row0()
    ensures MovedRow0(Layout(19), Layout(21), SV, [2, 1, 0, 3, 6, 5, 4, 7], [2, 1, 0, 3, 6, 5, 4, 7])
  {
  }

  lemma VerticalFlipOfP20Row1()
    ensures MovedRow1(Layout(19), Layout(21), SV, [2, 1, 0, 3, 6, 5, 4, 7], [2, 1, 0, 3, 6, 5, 4, 7])
  {
  }

  lemma VerticalFlipOfP20Row2()
    ensures MovedRow2(Layout(19), Layout(21), SV, [2, 1, 0, 3, 6, 5, 4, 7], [2, 1, 0, 3, 6, 5, 4, 7])
  {
  }

  lemma VerticalFlipOfP20Row3()
    ensures MovedRow3(Layout(19), Layout(21), SV, [2, 1, 0, 3, 6, 5, 4, 7], [2, 1, 0, 3, 6, 5, 4, 7])
  {
  }

  /** The vertical flip carries P21 onto P21, renaming block x to [2, 1, 0, 3, 6, 5, 4, 7][x]; the lookup finds P21. */
  lemma VerticalFlipOfP21(table: seq<Grid>)
    requires HasLayouts(table)
    ensures SameShape(Transform(table[20], SV), table[20])
    ensures Image(table, 20, SV) == Some(20)
  {
    VerticalFlipOfP21Row0();
    VerticalFlipOfP21Row1();
    VerticalFlipOfP21Row2();
    VerticalFlipOfP21Row3();
    MovedByRenaming(table, 20, 20, SV, [2, 1, 0, 3, 6, 5, 4, 7], [2, 1, 0, 3, 6, 5, 4, 7]);
    LayoutsDistinct(table);
    ImageIff(table, 20, SV, 20);
  }

  lemma VerticalFlipOfP21Row0()
    ensures MovedRow0(Layout(20), Layout(20), SV, [2, 1, 0, 3, 6, 5, 4, 7], [2, 1, 0, 3, 6, 5, 4, 7])
  {
  }

  lemma VerticalFlipOfP21Row1()
    ensures MovedRow1(Layout(20), Layout(20), SV, [2, 1, 0, 3, 6, 5, 4, 7], [2, 1, 0, 3, 6, 5, 4, 7])
  {
  }

  lemma VerticalFlipOfP21Row2()
    ensures MovedRow2(Layout(20), Layout(20), SV, [2, 1, 0, 3, 6, 5, 4, 7], [2, 1, 0, 3, 6, 5, 4, 7])
  {
  }

  lemma VerticalFlipOfP21Row3()
    ensures MovedRow3(Layout(20), Layout(20), SV, [2, 1, 0, 3, 6, 5, 4, 7], [2, 1, 0, 3, 6, 5, 4, 7])
  {
  }

  /** The vertical flip carries P22 onto P20, renaming block x to [2, 1, 0, 3, 6, 5, 4, 7][x]; the lookup finds P20. */
  lemma VerticalFlipOfP22(table: seq<Grid>)
    requires HasLayouts(table)
    ensures SameShape(Transform(table[21], SV), table[19])
    ensures Image(table, 21, SV) == Some(19)
  {
    VerticalFlipOfP22Row0();
    VerticalFlipOfP22Row1();
    VerticalFlipOfP22Row2();
    VerticalFlipOfP22Row3();
    MovedByRenaming(table, 21, 19, SV, [2, 1, 0, 3, 6, 5, 4, 7], [2, 1, 0, 3, 6, 5, 4, 7]);
    LayoutsDistinct(table);
    ImageIff(table, 21, SV, 19);
  }

  lemma VerticalFlipOfP22Row0()
    ensures MovedRow0(Layout(21), Layout(19), SV, [2, 1, 0, 3, 6, 5, 4, 7], [2, 1, 0, 3, 6, 5, 4, 7])
  {
  }

  lemma VerticalFlipOfP22Row1()
    ensures MovedRow1(Layout(21), Layout(19), SV, [2, 1, 0, 3, 6, 5, 4, 7], [2, 1, 0, 3, 6, 5, 4, 7])
  {
  }

  lemma VerticalFlipOfP22Row2()
    ensures MovedRow2(Layout(21), Layout(19), SV, [2, 1, 0, 3, 6, 5, 4, 7], [2, 1, 0, 3, 6, 5, 4, 7])
  {
  }

  lemma VerticalFlipOfP22Row3()
    ensures MovedRow3(Layout(21), Layout(19), SV, [2, 1, 0, 3, 6, 5, 4, 7], [2, 1, 0, 3, 6, 5, 4, 7])
  {
  }

  /** The vertical flip carries P23 onto P23, renaming block x to [2, 1, 0, 3, 7, 6, 5, 4][x]; the lookup finds P23. */
  lemma VerticalFlipOfP23(table: seq<Grid>)
    requires HasLayouts(table)
    ensures SameShape(Transform(table[22], SV), table[22])
    ensures Image(table, 22, SV) == Some(22)
  {
    VerticalFlipOfP23Row0();
    VerticalFlipOfP23Row1();
    VerticalFlipOfP23Row2();
    VerticalFlipOfP23Row3();
    MovedByRenaming(table, 22, 22, SV, [2, 1, 0, 3, 7, 6, 5, 4], [2, 1, 0, 3, 7, 6, 5, 4]);
    LayoutsDistinct(table);
    ImageIff(table, 22, SV, 22);
  }

  lemma VerticalFlipOfP23Row0()
    ensures MovedRow0(Layout(22), Layout(22), SV, [2, 1, 0, 3, 7, 6, 5, 4], [2, 1, 0, 3, 7, 6, 5, 4])
  {
  }

  lemma VerticalFlipOfP23Row1()
    ensures MovedRow1(Layout(22), Layout(22), SV, [2, 1, 0, 3, 7, 6, 5, 4], [2, 1, 0, 3, 7, 6, 5, 4])
  {
  }

  lemma VerticalFlipOfP23Row2()
    ensures MovedRow2(Layout(22), Layout(22), SV, [2, 1, 0, 3, 7, 6, 5, 4], [2, 1, 0, 3, 7, 6, 5, 4])
  {
  }

  lemma VerticalFlipOfP23Row3()
    ensures MovedRow3(Layout(22), Layout(22), SV, [2, 1, 0, 3, 7, 6, 5, 4], [2, 1, 0, 3, 7, 6, 5, 4])
  {
  }

  /** The vertical flip carries P24 onto P24, renaming block x to [2, 1, 0, 4, 3, 6, 5, 7][x]; the lookup finds P24. */
  lemma VerticalFlipOfP24(table: seq<Grid>)
    requires HasLayouts(table)
    ensures SameShape(Transform(table[23], SV), table[23])
    ensures Image(table, 23, SV) == Some(23)
  {
    VerticalFlipOfP24Row0();
    VerticalFlipOfP24Row1();
    VerticalFlipOfP24Row2();
    VerticalFlipOfP24Row3();
    MovedByRenaming(table, 23, 23, SV, [2, 1, 0, 4, 3, 6, 5, 7], [2, 1, 0, 4, 3, 6, 5, 7]);
    LayoutsDistinct(table);
    ImageIff(table, 23, SV, 23);
  }

  lemma VerticalFlipOfP24Row0()
    ensures MovedRow0(Layout(23), Layout(23), SV, [2, 1, 0, 4, 3, 6, 5, 7], [2, 1, 0, 4, 3, 6, 5, 7])
  {
  }

  lemma VerticalFlipOfP24Row1()
    ensures MovedRow1(Layout(23), Layout(23), SV, [2, 1, 0, 4, 3, 6, 5, 7], [2, 1, 0, 4, 3, 6, 5, 7])
  {
  }

  lemma VerticalFlipOfP24Row2()
    ensures MovedRow2(Layout(23), Layout(23), SV, [2, 1, 0, 4, 3, 6, 5, 7], [2, 1, 0, 4, 3, 6, 5, 7])
  {
  }

  lemma VerticalFlipOfP24Row3()
    ensures MovedRow3(Layout(23), Layout(23), SV, [2, 1, 0, 4, 3, 6, 5, 7], [2, 1, 0, 4, 3, 6, 5, 7])
  {
  }

  /** The vertical flip carries P25 onto P12, renaming block x to [2, 1, 0, 3, 5, 4, 7, 6][x]; the lookup finds P12. */
  lemma VerticalFlipOfP25(table: seq<Grid>)
    requires HasLayouts(table)
    ensures SameShape(Transform(table[24], SV), table[11])
    ensures Image(table, 24, SV) == Some(11)
  {
    VerticalFlipOfP25Row0();
    VerticalFlipOfP25Row1();
    VerticalFlipOfP25Row2();
    VerticalFlipOfP25Row3();
    MovedByRenaming(table, 24, 11, SV, [2, 1, 0, 3, 5, 4, 7, 6], [2, 1, 0, 3, 5, 4, 7, 6]);
    LayoutsDistinct(table);
    ImageIff(table, 24, SV, 11);
  }

  lemma VerticalFlipOfP25Row0()
    ensures MovedRow0(Layout(24), Layout(11), SV, [2, 1, 0, 3, 5, 4, 7, 6], [2, 1, 0, 3, 5, 4, 7, 6])
  {
  }

  lemma VerticalFlipOfP25Row1()
    ensures MovedRow1(Layout(24), Layout(11), SV, [2, 1, 0, 3, 5, 4, 7, 6], [2, 1, 0, 3, 5, 4, 7, 6])
  {
  }

  lemma VerticalFlipOfP25Row2()
    ensures MovedRow2(Layout(24), Layout(11), SV, [2, 1, 0, 3, 5, 4, 7, 6], [2, 1, 0, 3, 5, 4, 7, 6])
  {
  }

  lemma VerticalFlipOfP25Row3()
    ensures MovedRow3(Layout(24), Layout(11), SV, [2, 1, 0, 3, 5, 4, 7, 6], [2, 1, 0, 3, 5, 4, 7, 6])
  {
  }

  /** The vertical flip carries P26 onto P15, renaming block x to [2, 1, 0, 3, 6, 5, 4, 7][x]; the lookup finds P15. */
  lemma VerticalFlipOfP26(table: seq<Grid>)
    requires HasLayouts(table)
    ensures SameShape(Transform(table[25], SV), table[14])
    ensures Image(table, 25, SV) == Some(14)
  {
    VerticalFlipOfP26Row0();
    VerticalFlipOfP26Row1();
    VerticalFlipOfP26Row2();
    VerticalFlipOfP26Row3();
    MovedByRenaming(table, 25, 14, SV, [2, 1, 0, 3, 6, 5, 4, 7], [2, 1, 0, 3, 6, 5, 4, 7]);
    LayoutsDistinct(table);
    ImageIff(table, 25, SV, 14);
  }

  lemma VerticalFlipOfP26Row0()
    ensures MovedRow0(Layout(25), Layout(14), SV, [2, 1, 0, 3, 6, 5, 4, 7], [2, 1, 0, 3, 6, 5, 4, 7])
  {
  }

  lemma VerticalFlipOfP26Row1()
    ensures MovedRow1(Layout(25), Layout(14), SV, [2, 1, 0, 3, 6, 5, 4, 7], [2, 1, 0, 3, 6, 5, 4, 7])
  {
  }

  lemma VerticalFlipOfP26Row2()
    ensures MovedRow2(Layout(25), Layout(14), SV, [2, 1, 0, 3, 6, 5, 4, 7], [2, 1, 0, 3, 6, 5, 4, 7])
  {
  }

  lemma VerticalFlipOfP26Row3()
    ensures MovedRow3(Layout(25), Layout(14), SV, [2, 1, 0, 3, 6, 5, 4, 7], [2, 1, 0, 3, 6, 5, 4, 7])
  {
  }

  /** The vertical flip carries P27 onto P14, renaming block x to [2, 1, 0, 3, 6, 5, 4, 7][x]; the lookup finds P14. */
  lemma VerticalFlipOfP27(table: seq<Grid>)
    requires HasLayouts(table)
    ensures SameShape(Transform(table[26], SV), table[13])
    ensures Image(table, 26, SV) == Some(13)
  {
    VerticalFlipOfP27Row0();
    VerticalFlipOfP27Row1();
    VerticalFlipOfP27Row2();
    VerticalFlipOfP27Row3();
    MovedByRenaming(table, 26, 13, SV, [2, 1, 0, 3, 6, 5, 4, 7], [2, 1, 0, 3, 6, 5, 4, 7]);
    LayoutsDistinct(table);
    ImageIff(table, 26, SV, 13);
  }

  lemma VerticalFlipOfP27Row0()
    ensures MovedRow0(Layout(26), Layout(13), SV, [2, 1, 0, 3, 6, 5, 4, 7], [2, 1, 0, 3, 6, 5, 4, 7])
  {
  }

  lemma VerticalFlipOfP27Row1()
    ensures MovedRow1(Layout(26), Layout(13), SV, [2, 1, 0, 3, 6, 5, 4, 7], [2, 1, 0, 3, 6, 5, 4, 7])
  {
  }

  lemma VerticalFlipOfP27Row2()
    ensures MovedRow2(Layout(26), Layout(13), SV, [2, 1, 0, 3, 6, 5, 4, 7], [2, 1, 0, 3, 6, 5, 4, 7])
  {
  }

  lemma VerticalFlipOfP27Row3()
    ensures MovedRow3(Layout(26), Layout(13), SV, [2, 1, 0, 3, 6, 5, 4, 7], [2, 1, 0, 3, 6, 5, 4, 7])
  {
  }

  /** The vertical flip carries P28 onto P13, renaming block x to [2, 1, 0, 3, 6, 5, 4, 7][x]; the lookup finds P13. */
  lemma VerticalFlipOfP28(table: seq<Grid>)
    requires HasLayouts(table)
    ensures SameShape(Transform(table[27], SV), table[12])
    ensures Image(table, 27, SV) == Some(12)
  {
    VerticalFlipOfP28Row0();
    VerticalFlipOfP28Row1();
    VerticalFlipOfP28Row2();
    VerticalFlipOfP28Row3();
    MovedByRenaming(table, 27, 12, SV, [2, 1, 0, 3, 6, 5, 4, 7], [2, 1, 0, 3, 6, 5, 4, 7]);
    LayoutsDistinct(table);
    ImageIff(table, 27, SV, 12);
  }

  lemma VerticalFlipOfP28Row0()
    ensures MovedRow0(Layout(27), Layout(12), SV, [2, 1, 0, 3, 6, 5, 4, 7], [2, 1, 0, 3, 6, 5, 4, 7])
  {
  }

  lemma VerticalFlipOfP28Row1()
    ensures MovedRow1(Layout(27), Layout(12), SV, [2, 1, 0, 3, 6, 5, 4, 7], [2, 1, 0, 3, 6, 5, 4, 7])
  {
  }

  lemma VerticalFlipOfP28Row2()
    ensures MovedRow2(Layout(27), Layout(12), SV, [2, 1, 0, 3, 6, 5, 4, 7], [2, 1, 0, 3, 6, 5, 4, 7])
  {
  }

  lemma VerticalFlipOfP28Row3()
    ensures MovedRow3(Layout(27), Layout(12), SV, [2, 1, 0, 3, 6, 5, 4, 7], [2, 1, 0, 3, 6, 5, 4, 7])
  {
  }

  /** The vertical flip carries P29 onto P16, renaming block x to [2, 1, 0, 3, 7, 6, 5, 4][x]; the lookup finds P16. */
  lemma VerticalFlipOfP29(table: seq<Grid>)
    requires HasLayouts(table)
    ensures SameShape(Transform(table[28], SV), table[15])
    ensures Image(table, 28, SV) == Some(15)
  {
    VerticalFlipOfP29Row0();
    VerticalFlipOfP29Row1();
    VerticalFlipOfP29Row2();
    VerticalFlipOfP29Row3();
    MovedByRenaming(table, 28, 15, SV, [2, 1, 0, 3, 7, 6, 5, 4], [2, 1, 0, 3, 7, 6, 5, 4]);
    LayoutsDistinct(table);
    ImageIff(table, 28, SV, 15);
  }

  lemma VerticalFlipOfP29Row0()
    ensures MovedRow0(Layout(28), Layout(15), SV, [2, 1, 0, 3, 7, 6, 5, 4], [2, 1, 0, 3, 7, 6, 5, 4])
  {
  }

  lemma VerticalFlipOfP29Row1()
    ensures MovedRow1(Layout(28), Layout(15), SV, [2, 1, 0, 3, 7, 6, 5, 4], [2, 1, 0, 3, 7, 6, 5, 4])
  {
  }

  lemma VerticalFlipOfP29Row2()
    ensures MovedRow2(Layout(28), Layout(15), SV, [2, 1, 0, 3, 7, 6, 5, 4], [2, 1, 0, 3, 7, 6, 5, 4])
  {
  }

  lemma VerticalFlipOfP29Row3()
    ensures MovedRow3(Layout(28), Layout(15), SV, [2, 1, 0, 3, 7, 6, 5, 4], [2, 1, 0, 3, 7, 6, 5, 4])
  {
  }

  /** The vertical flip carries P30 onto P17, renaming block x to [2, 1, 0, 4, 3, 5, 7, 6][x]; the lookup finds P17. */
  lemma VerticalFlipOfP30(table: seq<Grid>)
    requires HasLayouts(table)
    ensures SameShape(Transform(table[29], SV), table[16])
    ensures Image(table, 29, SV) == Some(16)
  {
    VerticalFlipOfP30Row0();
    VerticalFlipOfP30Row1();
    VerticalFlipOfP30Row2();
    VerticalFlipOfP30Row3();
    MovedByRenaming(table, 29, 16, SV, [2, 1, 0, 4, 3, 5, 7, 6], [2, 1, 0, 4, 3, 5, 7, 6]);
    LayoutsDistinct(table);
    ImageIff(table, 29, SV, 16);
  }

  lemma VerticalFlipOfP30Row0()
    ensures MovedRow0(Layout(29), Layout(16), SV, [2, 1, 0, 4, 3, 5, 7, 6], [2, 1, 0, 4, 3, 5, 7, 6])
  {
  }

  lemma VerticalFlipOfP30Row1()
    ensures MovedRow1(Layout(29), Layout(16), SV, [2, 1, 0, 4, 3, 5, 7, 6], [2, 1, 0, 4, 3, 5, 7, 6])
  {
  }

  lemma VerticalFlipOfP30Row2()
    ensures MovedRow2(Layout(29), Layout(16), SV, [2, 1, 0, 4, 3, 5, 7, 6], [2, 1, 0, 4, 3, 5, 7, 6])
  {
  }

  lemma VerticalFlipOfP30Row3()
    ensures MovedRow3(Layout(29), Layout(16), SV, [2, 1, 0, 4, 3, 5, 7, 6], [2, 1, 0, 4, 3, 5, 7, 6])
  {
  }

  /** The vertical flip carries P31 onto P18, renaming block x to [2, 1, 0, 4, 3, 6, 5, 7][x]; the lookup finds P18. */
  lemma VerticalFlipOfP31(table: seq<Grid>)
    requires HasLayouts(table)
    ensures SameShape(Transform(table[30], SV), table[17])
    ensures Image(table, 30, SV) == Some(17)
  {
    VerticalFlipOfP31Row0();
    VerticalFlipOfP31Row1();
    VerticalFlipOfP31Row2();
    VerticalFlipOfP31Row3();
    MovedByRenaming(table, 30, 17, SV, [2, 1, 0, 4, 3, 6, 5, 7], [2, 1, 0, 4, 3, 6, 5, 7]);
    LayoutsDistinct(table);
    ImageIff(table, 30, SV, 17);
  }

  lemma VerticalFlipOfP31Row0()
    ensures MovedRow0(Layout(30), Layout(17), SV, [2, 1, 0, 4, 3, 6, 5, 7], [2, 1, 0, 4, 3, 6, 5, 7])
  {
  }

  lemma VerticalFlipOfP31Row1()
    ensures MovedRow1(Layout(30), Layout(17), SV, [2, 1, 0, 4, 3, 6, 5, 7], [2, 1, 0, 4, 3, 6, 5, 7])
  {
  }

  lemma VerticalFlipOfP31Row2()
    ensures MovedRow2(Layout(30), Layout(17), SV, [2, 1, 0, 4, 3, 6, 5, 7], [2, 1, 0, 4, 3, 6, 5, 7])
  {
  }

  lemma VerticalFlipOfP31Row3()
    ensures MovedRow3(Layout(30), Layout(17), SV, [2, 1, 0, 4, 3, 6, 5, 7], [2, 1, 0, 4, 3, 6, 5, 7])
  {
  }

  /** The vertical flip carries P32 onto P32, renaming block x to [3, 2, 1, 0, 5, 4, 7, 6][x]; the lookup finds P32. */
  lemma VerticalFlipOfP32(table: seq<Grid>)
    requires HasLayouts(table)
    ensures SameShape(Transform(table[31], SV), table[31])
    ensures Image(table, 31, SV) == Some(31)
  {
    VerticalFlipOfP32Row0();
    VerticalFlipOfP32Row1();
    VerticalFlipOfP32Row2();
    VerticalFlipOfP32Row3();
    MovedByRenaming(table, 31, 31, SV, [3, 2, 1, 0, 5, 4, 7, 6], [3, 2, 1, 0, 5, 4, 7, 6]);
    LayoutsDistinct(table);
    ImageIff(table, 31, SV, 31);
  }

  lemma VerticalFlipOfP32Row0()
    ensures MovedRow0(Layout(31), Layout(31), SV, [3, 2, 1, 0, 5, 4, 7, 6], [3, 2, 1, 0, 5, 4, 7, 6])
  {
  }

  lemma VerticalFlipOfP32Row1()
    ensures MovedRow1(Layout(31), Layout(31), SV, [3, 2, 1, 0, 5, 4, 7, 6], [3, 2, 1, 0, 5, 4, 7, 6])
  {
  }

  lemma VerticalFlipOfP32Row2()
    ensures MovedRow2(Layout(31), Layout(31), SV, [3, 2, 1, 0, 5, 4, 7, 6], [3, 2, 1, 0, 5, 4, 7, 6])
  {
  }

  lemma VerticalFlipOfP32Row3()
    ensures MovedRow3(Layout(31), Layout(31), SV, [3, 2, 1, 0, 5, 4, 7, 6], [3, 2, 1, 0, 5, 4, 7, 6])
  {
  }

  /** The vertical flip carries P33 onto P35, renaming block x to [3, 2, 1, 0, 6, 5, 4, 7][x]; the lookup finds P35. */
  lemma VerticalFlipOfP33(table: seq<Grid>)
    requires HasLayouts(table)
    ensures SameShape(Transform(table[32], SV), table[34])
    ensures Image(table, 32, SV) == Some(34)
  {
    VerticalFlipOfP33Row0();
    VerticalFlipOfP33Row1();
    VerticalFlipOfP33Row2();
    VerticalFlipOfP33Row3();
    MovedByRenaming(table, 32, 34, SV, [3, 2, 1, 0, 6, 5, 4, 7], [3, 2, 1, 0, 6, 5, 4, 7]);
    LayoutsDistinct(table);
    ImageIff(table, 32, SV, 34);
  }

  lemma VerticalFlipOfP33Row0()
    ensures MovedRow0(Layout(32), Layout(34), SV, [3, 2, 1, 0, 6, 5, 4, 7], [3, 2, 1, 0, 6, 5, 4, 7])
  {
  }

  lemma VerticalFlipOfP33Row1()
    ensures MovedRow1(Layout(32), Layout(34), SV, [3, 2, 1, 0, 6, 5, 4, 7], [3, 2, 1, 0, 6, 5, 4, 7])
  {
  }

  lemma VerticalFlipOfP33Row2()
    ensures MovedRow2(Layout(32), Layout(34), SV, [3, 2, 1, 0, 6, 5, 4, 7], [3, 2, 1, 0, 6, 5, 4, 7])
  {
  }

  lemma VerticalFlipOfP33Row3()
    ensures MovedRow3(Layout(32), Layout(34), SV, [3, 2, 1, 0, 6, 5, 4, 7], [3, 2, 1, 0, 6, 5, 4, 7])
  {
  }

  /** The vertical flip carries P34 onto P34, renaming block x to [3, 2, 1, 0, 6, 5, 4, 7][x]; the lookup finds P34. */
  lemma VerticalFlipOfP34(table: seq<Grid>)
    requires HasLayouts(table)
    ensures SameShape(Transform(table[33], SV), table[33])
    ensures Image(table, 33, SV) == Some(33)
  {
    VerticalFlipOfP34Row0();
    VerticalFlipOfP34Row1();
    VerticalFlipOfP34Row2();
    VerticalFlipOfP34Row3();
    MovedByRenaming(table, 33, 33, SV, [3, 2, 1, 0, 6, 5, 4, 7], [3, 2, 1, 0, 6, 5, 4, 7]);
    LayoutsDistinct(table);
    ImageIff(table, 33, SV, 33);
  }

  lemma VerticalFlipOfP34Row0()
    ensures MovedRow0(Layout(33), Layout(33), SV, [3, 2, 1, 0, 6, 5, 4, 7], [3, 2, 1, 0, 6, 5, 4, 7])
  {
  }

  lemma VerticalFlipOfP34Row1()
    ensures MovedRow1(Layout(33), Layout(33), SV, [3, 2, 1, 0, 6, 5, 4, 7], [3, 2, 1, 0, 6, 5, 4, 7])
  {
  }

  lemma VerticalFlipOfP34Row2()
    ensures MovedRow2(Layout(33), Layout(33), SV, [3, 2, 1, 0, 6, 5, 4, 7], [3, 2, 1, 0, 6, 5, 4, 7])
  {
  }

  lemma VerticalFlipOfP34Row3()
    ensures MovedRow3(Layout(33), Layout(33), SV, [3, 2, 1, 0, 6, 5, 4, 7], [3, 2, 1, 0, 6, 5, 4, 7])
  {
  }

  /** The vertical flip carries P35 onto P33, renaming block x to [3, 2, 1, 0, 6, 5, 4, 7][x]; the lookup finds P33. */
  lemma VerticalFlipOfP35(table: seq<Grid>)
    requires HasLayouts(table)
    ensures SameShape(Transform(table[34], SV), table[32])
    ensures Image(table, 34, SV) == Some(32)
  {
    VerticalFlipOfP35Row0();
    VerticalFlipOfP35Row1();
    VerticalFlipOfP35Row2();
    VerticalFlipOfP35Row3();
    MovedByRenaming(table, 34, 32, SV, [3, 2, 1, 0, 6, 5, 4, 7], [3, 2, 1, 0, 6, 5, 4, 7]);
    LayoutsDistinct(table);
    ImageIff(table, 34, SV, 32);
  }

  lemma VerticalFlipOfP35Row0()
    ensures MovedRow0(Layout(34), Layout(32), SV, [3, 2, 1, 0, 6, 5, 4, 7], [3, 2, 1, 0, 6, 5, 4, 7])
  {
  }

  lemma VerticalFlipOfP35Row1()
    ensures MovedRow1(Layout(34), Layout(32), SV, [3, 2, 1, 0, 6, 5, 4, 7], [3, 2, 1, 0, 6, 5, 4, 7])
  {
  }

  lemma VerticalFlipOfP35Row2()
    ensures MovedRow2(Layout(34), Layout(32), SV, [3, 2, 1, 0, 6, 5, 4, 7], [3, 2, 1, 0, 6, 5, 4, 7])
  {
  }

  lemma VerticalFlipOfP35Row3()
    ensures MovedRow3(Layout(34), Layout(32), SV, [3, 2, 1, 0, 6, 5, 4, 7], [3, 2, 1, 0, 6, 5, 4, 7])
  {
  }

  /** The vertical flip carries P36 onto P36, renaming block x to [3, 2, 1, 0, 7, 6, 5, 4][x]; the lookup finds P36. */
  lemma VerticalFlipOfP36(table: seq<Grid>)
    requires HasLayouts(table)
    ensures SameShape(Transform(table[35], SV), table[35])
    ensures Image(table, 35, SV) == Some(35)
  {
    VerticalFlipOfP36Row0();
    VerticalFlipOfP36Row1();
    VerticalFlipOfP36Row2();
    VerticalFlipOfP36Row3();
    MovedByRenaming(table, 35, 35, SV, [3, 2, 1, 0, 7, 6, 5, 4], [3, 2, 1, 0, 7, 6, 5, 4]);
    LayoutsDistinct(table);
    ImageIff(table, 35, SV, 35);
  }

  lemma VerticalFlipOfP36Row0()
    ensures MovedRow0(Layout(35), Layout(35), SV, [3, 2, 1, 0, 7, 6, 5, 4], [3, 2, 1, 0, 7, 6, 5, 4])
  {
  }

  lemma VerticalFlipOfP36Row1()
    ensures MovedRow1(Layout(35), Layout(35), SV, [3, 2, 1, 0, 7, 6, 5, 4], [3, 2, 1, 0, 7, 6, 5, 4])
  {
  }

  lemma VerticalFlipOfP36Row2()
    ensures MovedRow2(Layout(35), Layout(35), SV, [3, 2, 1, 0, 7, 6, 5, 4], [3, 2, 1, 0, 7, 6, 5, 4])
  {
  }

  lemma VerticalFlipOfP36Row3()
    ensures MovedRow3(Layout(35), Layout(35), SV, [3, 2, 1, 0, 7, 6, 5, 4], [3, 2, 1, 0, 7, 6, 5, 4])
  {
  }

  /**
   * Each tiling of the table named by the least tiling of its family (0-based), written
   * as four runs of nine so that a lookup stays shallow.
   */
  const Classes: seq<int> :=
    [0, 1, 2, 1, 4, 5, 6, 7, 5]
    + [6, 10, 1, 4, 6, 14, 1, 6, 2]
    + [2, 6, 10, 6, 5, 7, 1, 14, 6]
    + [4, 1, 6, 2, 4, 1, 5, 1, 0]

  /** Every class name is no later than the tilings it names. */
  lemma ClassNamesBelow()
    ensures |Classes| == 36
    ensures forall j :: 0 <= j < 36 ==> 0 <= Classes[j] <= j
  {
  }

  /** The class names of P1 .. P9. */
  lemma ClassesFrom0()
    ensures Classes[0] == 0
    ensures Classes[1] == 1
    ensures Classes[2] == 2
    ensures Classes[3] == 1
    ensures Classes[4] == 4
    ensures Classes[5] == 5
    ensures Classes[6] == 6
    ensures Classes[7] == 7
    ensures Classes[8] == 5
  {
  }

  /** The class names of P10 .. P18. */
  lemma ClassesFrom9()
    ensures Classes[9] == 6
    ensures Classes[10] == 10
    ensures Classes[11] == 1
    ensures Classes[12] == 4
    ensures Classes[13] == 6
    ensures Classes[14] == 14
    ensures Classes[15] == 1
    ensures Classes[16] == 6
    ensures Classes[17] == 2
  {
  }

  /** The class names of P19 .. P27. */
  lemma ClassesFrom18()
    ensures Classes[18] == 2
    ensures Classes[19] == 6
    ensures Classes[20] == 10
    ensures Classes[21] == 6
    ensures Classes[22] == 5
    ensures Classes[23] == 7
    ensures Classes[24] == 1
    ensures Classes[25] == 14
    ensures Classes[26] == 6
  {
  }

  /** The class names of P28 .. P36. */
  lemma ClassesFrom27()
    ensures Classes[27] == 4
    ensures Classes[28] == 1
    ensures Classes[29] == 6
    ensures Classes[30] == 2
    ensures Classes[31] == 4
    ensures Classes[32] == 1
    ensures Classes[33] == 5
    ensures Classes[34] == 1
    ensures Classes[35] == 0
  {
  }

  /** The quarter turn keeps the class of P1: its image P36 is in the family of P1. */
  lemma KeptByQuarterTurnP1(table: seq<Grid>)
    requires HasLayouts(table)
    ensures Image(table, 0, R90).Some? && Classes[Image(table, 0, R90).value] == Classes[0]
  {
    QuarterTurnOfP1(table);
    ClassesFrom0();
    ClassesFrom27();
  }

  /** The quarter turn keeps the class of P2: its image P33 is in the family of P2. */
  lemma KeptByQuarterTurnP2(table: seq<Grid>)
    requires HasLayouts(table)
    ensures Image(table, 1, R90).Some? && Classes[Image(table, 1, R90).value] == Classes[1]
  {
    QuarterTurnOfP2(table);
    ClassesFrom0();
    ClassesFrom27();
  }

  /** The quarter turn keeps the class of P3: its image P18 is in the family of P3. */
  lemma KeptByQuarterTurnP3(table: seq<Grid>)
    requires HasLayouts(table)
    ensures Image(table, 2, R90).Some? && Classes[Image(table, 2, R90).value] == Classes[2]
  {
    QuarterTurnOfP3(table);
    ClassesFrom0();
    ClassesFrom9();
  }

  /** The quarter turn keeps the class of P4: its image P16 is in the family of P2. */
  lemma KeptByQuarterTurnP4(table: seq<Grid>)
    requires HasLayouts(table)
    ensures Image(table, 3, R90).Some? && Classes[Image(table, 3, R90).value] == Classes[3]
  {
    QuarterTurnOfP4(table);
    ClassesFrom0();
    ClassesFrom9();
  }

  /** The quarter turn keeps the class of P5: its image P13 is in the family of P5. */
  lemma KeptByQuarterTurnP5(table: seq<Grid>)
    requires HasLayouts(table)
    ensures Image(table, 4, R90).Some? && Classes[Image(table, 4, R90).value] == Classes[4]
  {
    QuarterTurnOfP5(table);
    ClassesFrom0();
    ClassesFrom9();
  }

  /** The quarter turn keeps the class of P6: its image P34 is in the family of P6. */
  lemma KeptByQuarterTurnP6(table: seq<Grid>)
    requires HasLayouts(table)
    ensures Image(table, 5, R90).Some? && Classes[Image(table, 5, R90).value] == Classes[5]
  {
    QuarterTurnOfP6(table);
    ClassesFrom0();
    ClassesFrom27();
  }

  /** The quarter turn keeps the class of P7: its image P14 is in the family of P7. */
  lemma KeptByQuarterTurnP7(table: seq<Grid>)
    requires HasLayouts(table)
    ensures Image(table, 6, R90).Some? && Classes[Image(table, 6, R90).value] == Classes[6]
  {
    QuarterTurnOfP7(table);
    ClassesFrom0();
    ClassesFrom9();
  }

  /** The quarter turn keeps the class of P8: its image P24 is in the family of P8. */
  lemma KeptByQuarterTurnP8(table: seq<Grid>)
    requires HasLayouts(table)
    ensures Image(table, 7, R90).Some? && Classes[Image(table, 7, R90).value] == Classes[7]
  {
    QuarterTurnOfP8(table);
    ClassesFrom0();
    ClassesFrom18();
  }

  /** The quarter turn keeps the class of P9: its image P23 is in the family of P6. */
  lemma KeptByQuarterTurnP9(table: seq<Grid>)
    requires HasLayouts(table)
    ensures Image(table, 8, R90).Some? && Classes[Image(table, 8, R90).value] == Classes[8]
  {
    QuarterTurnOfP9(table);
    ClassesFrom0();
    ClassesFrom18();
  }

  /** The quarter turn keeps the class of P10: its image P20 is in the family of P7. */
  lemma KeptByQuarterTurnP10(table: seq<Grid>)
    requires HasLayouts(table)
    ensures Image(table, 9, R90).Some? && Classes[Image(table, 9, R90).value] == Classes[9]
  {
    QuarterTurnOfP10(table);
    ClassesFrom9();
    ClassesFrom18();
  }

  /** The quarter turn keeps the class of P11: its image P21 is in the family of P11. */
  lemma KeptByQuarterTurnP11(table: seq<Grid>)
    requires HasLayouts(table)
    ensures Image(table, 10, R90).Some? && Classes[Image(table, 10, R90).value] == Classes[10]
  {
    QuarterTurnOfP11(table);
    ClassesFrom9();
    ClassesFrom18();
  }

  /** The quarter turn keeps the class of P12: its image P35 is in the family of P2. */
  lemma KeptByQuarterTurnP12(table: seq<Grid>)
    requires HasLayouts(table)
    ensures Image(table, 11, R90).Some? && Classes[Image(table, 11, R90).value] == Classes[11]
  {
    QuarterTurnOfP12(table);
    ClassesFrom9();
    ClassesFrom27();
  }

  /** The quarter turn keeps the class of P13: its image P32 is in the family of P5. */
  lemma KeptByQuarterTurnP13(table: seq<Grid>)
    requires HasLayouts(table)
    ensures Image(table, 12, R90).Some? && Classes[Image(table, 12, R90).value] == Classes[12]
  {
    QuarterTurnOfP13(table);
    ClassesFrom9();
    ClassesFrom27();
  }

  /** The quarter turn keeps the class of P14: its image P17 is in the family of P7. */
  lemma KeptByQuarterTurnP14(table: seq<Grid>)
    requires HasLayouts(table)
    ensures Image(table, 13, R90).Some? && Classes[Image(table, 13, R90).value] == Classes[13]
  {
    QuarterTurnOfP14(table);
    ClassesFrom9();
  }

  /** The quarter turn keeps the class of P15: its image P15 is in the family of P15. */
  lemma KeptByQuarterTurnP15(table: seq<Grid>)
    requires HasLayouts(table)
    ensures Image(table, 14, R90).Some? && Classes[Image(table, 14, R90).value] == Classes[14]
  {
    QuarterTurnOfP15(table);
    ClassesFrom9();
  }

  /** The quarter turn keeps the class of P16: its image P12 is in the family of P2. */
  lemma KeptByQuarterTurnP16(table: seq<Grid>)
    requires HasLayouts(table)
    ensures Image(table, 15, R90).Some? && Classes[Image(table, 15, R90).value] == Classes[15]
  {
    QuarterTurnOfP16(table);
    ClassesFrom9();
  }

  /** The quarter turn keeps the class of P17: its image P22 is in the family of P7. */
  lemma KeptByQuarterTurnP17(table: seq<Grid>)
    requires HasLayouts(table)
    ensures Image(table, 16, R90).Some? && Classes[Image(table, 16, R90).value] == Classes[16]
  {
    QuarterTurnOfP17(table);
    ClassesFrom9();
    ClassesFrom18();
  }

  /** The quarter turn keeps the class of P18: its image P19 is in the family of P3. */
  lemma KeptByQuarterTurnP18(table: seq<Grid>)
    requires HasLayouts(table)
    ensures Image(table, 17, R90).Some? && Classes[Image(table, 17, R90).value] == Classes[17]
  {
    QuarterTurnOfP18(table);
    ClassesFrom9();
    ClassesFrom18();
  }

  /** The quarter turn keeps the class of P19: its image P31 is in the family of P3. */
  lemma KeptByQuarterTurnP19(table: seq<Grid>)
    requires HasLayouts(table)
    ensures Image(table, 18, R90).Some? && Classes[Image(table, 18, R90).value] == Classes[18]
  {
    QuarterTurnOfP19(table);
    ClassesFrom18();
    ClassesFrom27();
  }

  /** The quarter turn keeps the class of P20: its image P30 is in the family of P7. */
  lemma KeptByQuarterTurnP20(table: seq<Grid>)
    requires HasLayouts(table)
    ensures Image(table, 19, R90).Some? && Classes[Image(table, 19, R90).value] == Classes[19]
  {
    QuarterTurnOfP20(table);
    ClassesFrom18();
    ClassesFrom27();
  }

  /** The quarter turn keeps the class of P21: its image P11 is in the family of P11. */
  lemma KeptByQuarterTurnP21(table: seq<Grid>)
    requires HasLayouts(table)
    ensures Image(table, 20, R90).Some? && Classes[Image(table, 20, R90).value] == Classes[20]
  {
    QuarterTurnOfP21(table);
    ClassesFrom9();
    ClassesFrom18();
  }

  /** The quarter turn keeps the class of P22: its image P7 is in the family of P7. */
  lemma KeptByQuarterTurnP22(table: seq<Grid>)
    requires HasLayouts(table)
    ensures Image(table, 21, R90).Some? && Classes[Image(table, 21, R90).value] == Classes[21]
  {
    QuarterTurnOfP22(table);
    ClassesFrom0();
    ClassesFrom18();
  }

  /** The quarter turn keeps the class of P23: its image P6 is in the family of P6. */
  lemma KeptByQuarterTurnP23(table: seq<Grid>)
    requires HasLayouts(table)
    ensures Image(table, 22, R90).Some? && Classes[Image(table, 22, R90).value] == Classes[22]
  {
    QuarterTurnOfP23(table);
    ClassesFrom0();
    ClassesFrom18();
  }

  /** The quarter turn keeps the class of P24: its image P8 is in the family of P8. */
  lemma KeptByQuarterTurnP24(table: seq<Grid>)
    requires HasLayouts(table)
    ensures Image(table, 23, R90).Some? && Classes[Image(table, 23, R90).value] == Classes[23]
  {
    QuarterTurnOfP24(table);
    ClassesFrom0();
    ClassesFrom18();
  }

  /** The quarter turn keeps the class of P25: its image P29 is in the family of P2. */
  lemma KeptByQuarterTurnP25(table: seq<Grid>)
    requires HasLayouts(table)
    ensures Image(table, 24, R90).Some? && Classes[Image(table, 24, R90).value] == Classes[24]
  {
    QuarterTurnOfP25(table);
    ClassesFrom18();
    ClassesFrom27();
  }

  /** The quarter turn keeps the class of P26: its image P26 is in the family of P15. */
  lemma KeptByQuarterTurnP26(table: seq<Grid>)
    requires HasLayouts(table)
    ensures Image(table, 25, R90).Some? && Classes[Image(table, 25, R90).value] == Classes[25]
  {
    QuarterTurnOfP26(table);
    ClassesFrom18();
  }

  /** The quarter turn keeps the class of P27: its image P10 is in the family of P7. */
  lemma KeptByQuarterTurnP27(table: seq<Grid>)
    requires HasLayouts(table)
    ensures Image(table, 26, R90).Some? && Classes[Image(table, 26, R90).value] == Classes[26]
  {
    QuarterTurnOfP27(table);
    ClassesFrom9();
    ClassesFrom18();
  }

  /** The quarter turn keeps the class of P28: its image P5 is in the family of P5. */
  lemma KeptByQuarterTurnP28(table: seq<Grid>)
    requires HasLayouts(table)
    ensures Image(table, 27, R90).Some? && Classes[Image(table, 27, R90).value] == Classes[27]
  {
    QuarterTurnOfP28(table);
    ClassesFrom0();
    ClassesFrom27();
  }

  /** The quarter turn keeps the class of P29: its image P2 is in the family of P2. */
  lemma KeptByQuarterTurnP29(table: seq<Grid>)
    requires HasLayouts(table)
    ensures Image(table, 28, R90).Some? && Classes[Image(table, 28, R90).value] == Classes[28]
  {
    QuarterTurnOfP29(table);
    ClassesFrom0();
    ClassesFrom27();
  }

  /** The quarter turn keeps the class of P30: its image P27 is in the family of P7. */
  lemma KeptByQuarterTurnP30(table: seq<Grid>)
    requires HasLayouts(table)
    ensures Image(table, 29, R90).Some? && Classes[Image(table, 29, R90).value] == Classes[29]
  {
    QuarterTurnOfP30(table);
    ClassesFrom18();
    ClassesFrom27();
  }

  /** The quarter turn keeps the class of P31: its image P3 is in the family of P3. */
  lemma KeptByQuarterTurnP31(table: seq<Grid>)
    requires HasLayouts(table)
    ensures Image(table, 30, R90).Some? && Classes[Image(table, 30, R90).value] == Classes[30]
  {
    QuarterTurnOfP31(table);
    ClassesFrom0();
    ClassesFrom27();
  }

  /** The quarter turn keeps the class of P32: its image P28 is in the family of P5. */
  lemma KeptByQuarterTurnP32(table: seq<Grid>)
    requires HasLayouts(table)
    ensures Image(table, 31, R90).Some? && Classes[Image(table, 31, R90).value] == Classes[31]
  {
    QuarterTurnOfP32(table);
    ClassesFrom27();
  }

  /** The quarter turn keeps the class of P33: its image P25 is in the family of P2. */
  lemma KeptByQuarterTurnP33(table: seq<Grid>)
    requires HasLayouts(table)
    ensures Image(table, 32, R90).Some? && Classes[Image(table, 32, R90).value] == Classes[32]
  {
    QuarterTurnOfP33(table);
    ClassesFrom18();
    ClassesFrom27();
  }

  /** The quarter turn keeps the class of P34: its image P9 is in the family of P6. */
  lemma KeptByQuarterTurnP34(table: seq<Grid>)
    requires HasLayouts(table)
    ensures Image(table, 33, R90).Some? && Classes[Image(table, 33, R90).value] == Classes[33]
  {
    QuarterTurnOfP34(table);
    ClassesFrom0();
    ClassesFrom27();
  }

  /** The quarter turn keeps the class of P35: its image P4 is in the family of P2. */
  lemma KeptByQuarterTurnP35(table: seq<Grid>)
    requires HasLayouts(table)
    ensures Image(table, 34, R90).Some? && Classes[Image(table, 34, R90).value] == Classes[34]
  {
    QuarterTurnOfP35(table);
    ClassesFrom0();
    ClassesFrom27();
  }

  /** The quarter turn keeps the class of P36: its image P1 is in the family of P1. */
  lemma KeptByQuarterTurnP36(table: seq<Grid>)
    requires HasLayouts(table)
    ensures Image(table, 35, R90).Some? && Classes[Image(table, 35, R90).value] == Classes[35]
  {
    QuarterTurnOfP36(table);
    ClassesFrom0();
    ClassesFrom27();
  }

  /** The quarter turn keeps the class of P1 .. P6. */
  lemma ClassesKeptByQuarterTurnFrom0(table: seq<Grid>, i: int)
    requires HasLayouts(table) && 0 <= i < 6
    ensures Image(table, i, R90).Some? && Classes[Image(table, i, R90).value] == Classes[i]
  {
    if i == 0 {
      KeptByQuarterTurnP1(table);
    } else if i == 1 {
      KeptByQuarterTurnP2(table);
    } else if i == 2 {
      KeptByQuarterTurnP3(table);
    } else if i == 3 {
      KeptByQuarterTurnP4(table);
    } else if i == 4 {
      KeptByQuarterTurnP5(table);
    } else {
      KeptByQuarterTurnP6(table);
    }
  }

  /** The quarter turn keeps the class of P7 .. P12. */
  lemma ClassesKeptByQuarterTurnFrom6(table: seq<Grid>, i: int)
    requires HasLayouts(table) && 6 <= i < 12
    ensures Image(table, i, R90).Some? && Classes[Image(table, i, R90).value] == Classes[i]
  {
    if i == 6 {
      KeptByQuarterTurnP7(table);
    } else if i == 7 {
      KeptByQuarterTurnP8(table);
    } else if i == 8 {
      KeptByQuarterTurnP9(table);
    } else if i == 9 {
      KeptByQuarterTurnP10(table);
    } else if i == 10 {
      KeptByQuarterTurnP11(table);
    } else {
      KeptByQuarterTurnP12(table);
    }
  }

  /** The quarter turn keeps the class of P13 .. P18. */
  lemma ClassesKeptByQuarterTurnFrom12(table: seq<Grid>, i: int)
    requires HasLayouts(table) && 12 <= i < 18
    ensures Image(table, i, R90).Some? && Classes[Image(table, i, R90).value] == Classes[i]
  {
    if i == 12 {
      KeptByQuarterTurnP13(table);
    } else if i == 13 {
      KeptByQuarterTurnP14(table);
    } else if i == 14 {
      KeptByQuarterTurnP15(table);
    } else if i == 15 {
      KeptByQuarterTurnP16(table);
    } else if i == 16 {
      KeptByQuarterTurnP17(table);
    } else {
      KeptByQuarterTurnP18(table);
    }
  }

  /** The quarter turn keeps the class of P19 .. P24. */
  lemma ClassesKeptByQuarterTurnFrom18(table: seq<Grid>, i: int)
    requires HasLayouts(table) && 18 <= i < 24
    ensures Image(table, i, R90).Some? && Classes[Image(table, i, R90).value] == Classes[i]
  {
    if i == 18 {
      KeptByQuarterTurnP19(table);
    } else if i == 19 {
      KeptByQuarterTurnP20(table);
    } else if i == 20 {
      KeptByQuarterTurnP21(table);
    } else if i == 21 {
      KeptByQuarterTurnP22(table);
    } else if i == 22 {
      KeptByQuarterTurnP23(table);
    } else {
      KeptByQuarterTurnP24(table);
    }
  }

  /** The quarter turn keeps the class of P25 .. P30. */
  lemma ClassesKeptByQuarterTurnFrom24(table: seq<Grid>, i: int)
    requires HasLayouts(table) && 24 <= i < 30
    ensures Image(table, i, R90).Some? && Classes[Image(table, i, R90).value] == Classes[i]
  {
    if i == 24 {
      KeptByQuarterTurnP25(table);
    } else if i == 25 {
      KeptByQuarterTurnP26(table);
    } else if i == 26 {
      KeptByQuarterTurnP27(table);
    } else if i == 27 {
      KeptByQuarterTurnP28(table);
    } else if i == 28 {
      KeptByQuarterTurnP29(table);
    } else {
      KeptByQuarterTurnP30(table);
    }
  }

  /** The quarter turn keeps the class of P31 .. P36. */
  lemma ClassesKeptByQuarterTurnFrom30(table: seq<Grid>, i: int)
    requires HasLayouts(table) && 30 <= i < 36
    ensures Image(table, i, R90).Some? && Classes[Image(table, i, R90).value] == Classes[i]
  {
    if i == 30 {
      KeptByQuarterTurnP31(table);
    } else if i == 31 {
      KeptByQuarterTurnP32(table);
    } else if i == 32 {
      KeptByQuarterTurnP33(table);
    } else if i == 33 {
      KeptByQuarterTurnP34(table);
    } else if i == 34 {
      KeptByQuarterTurnP35(table);
    } else {
      KeptByQuarterTurnP36(table);
    }
  }

  /** The quarter turn sends every tiling of the table to a tiling of the same class. */
  lemma ClassesKeptByQuarterTurn(table: seq<Grid>)
    requires HasLayouts(table)
    ensures Respects(table, Classes, R90)
  {
    forall i | 0 <= i < 36
      ensures Image(table, i, R90).Some? && Classes[Image(table, i, R90).value] == Classes[i]
    {
      if i < 6 {
        ClassesKeptByQuarterTurnFrom0(table, i);
      } else if i < 12 {
        ClassesKeptByQuarterTurnFrom6(table, i);
      } else if i < 18 {
        ClassesKeptByQuarterTurnFrom12(table, i);
      } else if i < 24 {
        ClassesKeptByQuarterTurnFrom18(table, i);
      } else if i < 30 {
        ClassesKeptByQuarterTurnFrom24(table, i);
      } else {
        ClassesKeptByQuarterTurnFrom30(table, i);
      }
    }
  }

  /** The vertical flip keeps the class of P1: its image P1 is in the family of P1. */
  lemma KeptByVerticalFlipP1(table: seq<Grid>)
    requires HasLayouts(table)
    ensures Image(table, 0, SV).Some? && Classes[Image(table, 0, SV).value] == Classes[0]
  {
    VerticalFlipOfP1(table);
    ClassesFrom0();
  }

  /** The vertical flip keeps the class of P2: its image P4 is in the family of P2. */
  lemma KeptByVerticalFlipP2(table: seq<Grid>)
    requires HasLayouts(table)
    ensures Image(table, 1, SV).Some? && Classes[Image(table, 1, SV).value] == Classes[1]
  {
    VerticalFlipOfP2(table);
    ClassesFrom0();
  }

  /** The vertical flip keeps the class of P3: its image P3 is in the family of P3. */
  lemma KeptByVerticalFlipP3(table: seq<Grid>)
    requires HasLayouts(table)
    ensures Image(table, 2, SV).Some? && Classes[Image(table, 2, SV).value] == Classes[2]
  {
    VerticalFlipOfP3(table);
    ClassesFrom0();
  }

  /** The vertical flip keeps the class of P4: its image P2 is in the family of P2. */
  lemma KeptByVerticalFlipP4(table: seq<Grid>)
    requires HasLayouts(table)
    ensures Image(table, 3, SV).Some? && Classes[Image(table, 3, SV).value] == Classes[3]
  {
    VerticalFlipOfP4(table);
    ClassesFrom0();
  }

  /** The vertical flip keeps the class of P5: its image P5 is in the family of P5. */
  lemma KeptByVerticalFlipP5(table: seq<Grid>)
    requires HasLayouts(table)
    ensures Image(table, 4, SV).Some? && Classes[Image(table, 4, SV).value] == Classes[4]
  {
    VerticalFlipOfP5(table);
    ClassesFrom0();
  }

  /** The vertical flip keeps the class of P6: its image P9 is in the family of P6. */
  lemma KeptByVerticalFlipP6(table: seq<Grid>)
    requires HasLayouts(table)
    ensures Image(table, 5, SV).Some? && Classes[Image(table, 5, SV).value] == Classes[5]
  {
    VerticalFlipOfP6(table);
    ClassesFrom0();
  }

  /** The vertical flip keeps the class of P7: its image P10 is in the family of P7. */
  lemma KeptByVerticalFlipP7(table: seq<Grid>)
    requires HasLayouts(table)
    ensures Image(table, 6, SV).Some? && Classes[Image(table, 6, SV).value] == Classes[6]
  {
    VerticalFlipOfP7(table);
    ClassesFrom0();
    ClassesFrom9();
  }

  /** The vertical flip keeps the class of P8: its image P8 is in the family of P8. */
  lemma KeptByVerticalFlipP8(table: seq<Grid>)
    requires HasLayouts(table)
    ensures Image(table, 7, SV).Some? && Classes[Image(table, 7, SV).value] == Classes[7]
  {
    VerticalFlipOfP8(table);
    ClassesFrom0();
  }

  /** The vertical flip keeps the class of P9: its image P6 is in the family of P6. */
  lemma KeptByVerticalFlipP9(table: seq<Grid>)
    requires HasLayouts(table)
    ensures Image(table, 8, SV).Some? && Classes[Image(table, 8, SV).value] == Classes[8]
  {
    VerticalFlipOfP9(table);
    ClassesFrom0();
  }

  /** The vertical flip keeps the class of P10: its image P7 is in the family of P7. */
  lemma KeptByVerticalFlipP10(table: seq<Grid>)
    requires HasLayouts(table)
    ensures Image(table, 9, SV).Some? && Classes[Image(table, 9, SV).value] == Classes[9]
  {
    VerticalFlipOfP10(table);
    ClassesFrom0();
    ClassesFrom9();
  }

  /** The vertical flip keeps the class of P11: its image P11 is in the family of P11. */
  lemma KeptByVerticalFlipP11(table: seq<Grid>)
    requires HasLayouts(table)
    ensures Image(table, 10, SV).Some? && Classes[Image(table, 10, SV).value] == Classes[10]
  {
    VerticalFlipOfP11(table);
    ClassesFrom9();
  }

  /** The vertical flip keeps the class of P12: its image P25 is in the family of P2. */
  lemma KeptByVerticalFlipP12(table: seq<Grid>)
    requires HasLayouts(table)
    ensures Image(table, 11, SV).Some? && Classes[Image(table, 11, SV).value] == Classes[11]
  {
    VerticalFlipOfP12(table);
    ClassesFrom9();
    ClassesFrom18();
  }

  /** The vertical flip keeps the class of P13: its image P28 is in the family of P5. */
  lemma KeptByVerticalFlipP13(table: seq<Grid>)
    requires HasLayouts(table)
    ensures Image(table, 12, SV).Some? && Classes[Image(table, 12, SV).value] == Classes[12]
  {
    VerticalFlipOfP13(table);
    ClassesFrom9();
    ClassesFrom27();
  }

  /** The vertical flip keeps the class of P14: its image P27 is in the family of P7. */
  lemma KeptByVerticalFlipP14(table: seq<Grid>)
    requires HasLayouts(table)
    ensures Image(table, 13, SV).Some? && Classes[Image(table, 13, SV).value] == Classes[13]
  {
    VerticalFlipOfP14(table);
    ClassesFrom9();
    ClassesFrom18();
  }

  /** The vertical flip keeps the class of P15: its image P26 is in the family of P15. */
  lemma KeptByVerticalFlipP15(table: seq<Grid>)
    requires HasLayouts(table)
    ensures Image(table, 14, SV).Some? && Classes[Image(table, 14, SV).value] == Classes[14]
  {
    VerticalFlipOfP15(table);
    ClassesFrom9();
    ClassesFrom18();
  }

  /** The vertical flip keeps the class of P16: its image P29 is in the family of P2. */
  lemma KeptByVerticalFlipP16(table: seq<Grid>)
    requires HasLayouts(table)
    ensures Image(table, 15, SV).Some? && Classes[Image(table, 15, SV).value] == Classes[15]
  {
    VerticalFlipOfP16(table);
    ClassesFrom9();
    ClassesFrom27();
  }

  /** The vertical flip keeps the class of P17: its image P30 is in the family of P7. */
  lemma KeptByVerticalFlipP17(table: seq<Grid>)
    requires HasLayouts(table)
    ensures Image(table, 16, SV).Some? && Classes[Image(table, 16, SV).value] == Classes[16]
  {
    VerticalFlipOfP17(table);
    ClassesFrom9();
    ClassesFrom27();
  }

  /** The vertical flip keeps the class of P18: its image P31 is in the family of P3. */
  lemma KeptByVerticalFlipP18(table: seq<Grid>)
    requires HasLayouts(table)
    ensures Image(table, 17, SV).Some? && Classes[Image(table, 17, SV).value] == Classes[17]
  {
    VerticalFlipOfP18(table);
    ClassesFrom9();
    ClassesFrom27();
  }

  /** The vertical flip keeps the class of P19: its image P19 is in the family of P3. */
  lemma KeptByVerticalFlipP19(table: seq<Grid>)
    requires HasLayouts(table)
    ensures Image(table, 18, SV).Some? && Classes[Image(table, 18, SV).value] == Classes[18]
  {
    VerticalFlipOfP19(table);
    ClassesFrom18();
  }

  /** The vertical flip keeps the class of P20: its image P22 is in the family of P7. */
  lemma KeptByVerticalFlipP20(table: seq<Grid>)
    requires HasLayouts(table)
    ensures Image(table, 19, SV).Some? && Classes[Image(table, 19, SV).value] == Classes[19]
  {
    VerticalFlipOfP20(table);
    ClassesFrom18();
  }

  /** The vertical flip keeps the class of P21: its image P21 is in the family of P11. */
  lemma KeptByVerticalFlipP21(table: seq<Grid>)
    requires HasLayouts(table)
    ensures Image(table, 20, SV).Some? && Classes[Image(table, 20, SV).value] == Classes[20]
  {
    VerticalFlipOfP21(table);
    ClassesFrom18();
  }

  /** The vertical flip keeps the class of P22: its image P20 is in the family of P7. */
  lemma KeptByVerticalFlipP22(table: seq<Grid>)
    requires HasLayouts(table)
    ensures Image(table, 21, SV).Some? && Classes[Image(table, 21, SV).value] == Classes[21]
  {
    VerticalFlipOfP22(table);
    ClassesFrom18();
  }

  /** The vertical flip keeps the class of P23: its image P23 is in the family of P6. */
  lemma KeptByVerticalFlipP23(table: seq<Grid>)
    requires HasLayouts(table)
    ensures Image(table, 22, SV).Some? && Classes[Image(table, 22, SV).value] == Classes[22]
  {
    VerticalFlipOfP23(table);
    ClassesFrom18();
  }

  /** The vertical flip keeps the class of P24: its image P24 is in the family of P8. */
  lemma KeptByVerticalFlipP24(table: seq<Grid>)
    requires HasLayouts(table)
    ensures Image(table, 23, SV).Some? && Classes[Image(table, 23, SV).value] == Classes[23]
  {
    VerticalFlipOfP24(table);
    ClassesFrom18();
  }

  /** The vertical flip keeps the class of P25: its image P12 is in the family of P2. */
  lemma KeptByVerticalFlipP25(table: seq<Grid>)
    requires HasLayouts(table)
    ensures Image(table, 24, SV).Some? && Classes[Image(table, 24, SV).value] == Classes[24]
  {
    VerticalFlipOfP25(table);
    ClassesFrom9();
    ClassesFrom18();
  }

  /** The vertical flip keeps the class of P26: its image P15 is in the family of P15. */
  lemma KeptByVerticalFlipP26(table: seq<Grid>)
    requires HasLayouts(table)
    ensures Image(table, 25, SV).Some? && Classes[Image(table, 25, SV).value] == Classes[25]
  {
    VerticalFlipOfP26(table);
    ClassesFrom9();
    ClassesFrom18();
  }

  /** The vertical flip keeps the class of P27: its image P14 is in the family of P7. */
  lemma KeptByVerticalFlipP27(table: seq<Grid>)
    requires HasLayouts(table)
    ensures Image(table, 26, SV).Some? && Classes[Image(table, 26, SV).value] == Classes[26]
  {
    VerticalFlipOfP27(table);
    ClassesFrom9();
    ClassesFrom18();
  }

  /** The vertical flip keeps the class of P28: its image P13 is in the family of P5. */
  lemma KeptByVerticalFlipP28(table: seq<Grid>)
    requires HasLayouts(table)
    ensures Image(table, 27, SV).Some? && Classes[Image(table, 27, SV).value] == Classes[27]
  {
    VerticalFlipOfP28(table);
    ClassesFrom9();
    ClassesFrom27();
  }

  /** The vertical flip keeps the class of P29: its image P16 is in the family of P2. */
  lemma KeptByVerticalFlipP29(table: seq<Grid>)
    requires HasLayouts(table)
    ensures Image(table, 28, SV).Some? && Classes[Image(table, 28, SV).value] == Classes[28]
  {
    VerticalFlipOfP29(table);
    ClassesFrom9();
    ClassesFrom27();
  }

  /** The vertical flip keeps the class of P30: its image P17 is in the family of P7. */
  lemma KeptByVerticalFlipP30(table: seq<Grid>)
    requires HasLayouts(table)
    ensures Image(table, 29, SV).Some? && Classes[Image(table, 29, SV).value] == Classes[29]
  {
    VerticalFlipOfP30(table);
    ClassesFrom9();
    ClassesFrom27();
  }

  /** The vertical flip keeps the class of P31: its image P18 is in the family of P3. */
  lemma KeptByVerticalFlipP31(table: seq<Grid>)
    requires HasLayouts(table)
    ensures Image(table, 30, SV).Some? && Classes[Image(table, 30, SV).value] == Classes[30]
  {
    VerticalFlipOfP31(table);
    ClassesFrom9();
    ClassesFrom27();
  }

  /** The vertical flip keeps the class of P32: its image P32 is in the family of P5. */
  lemma KeptByVerticalFlipP32(table: seq<Grid>)
    requires HasLayouts(table)
    ensures Image(table, 31, SV).Some? && Classes[Image(table, 31, SV).value] == Classes[31]
  {
    VerticalFlipOfP32(table);
    ClassesFrom27();
  }

  /** The vertical flip keeps the class of P33: its image P35 is in the family of P2. */
  lemma KeptByVerticalFlipP33(table: seq<Grid>)
    requires HasLayouts(table)
    ensures Image(table, 32, SV).Some? && Classes[Image(table, 32, SV).value] == Classes[32]
  {
    VerticalFlipOfP33(table);
    ClassesFrom27();
  }

  /** The vertical flip keeps the class of P34: its image P34 is in the family of P6. */
  lemma KeptByVerticalFlipP34(table: seq<Grid>)
    requires HasLayouts(table)
    ensures Image(table, 33, SV).Some? && Classes[Image(table, 33, SV).value] == Classes[33]
  {
    VerticalFlipOfP34(table);
    ClassesFrom27();
  }

  /** The vertical flip keeps the class of P35: its image P33 is in the family of P2. */
  lemma KeptByVerticalFlipP35(table: seq<Grid>)
    requires HasLayouts(table)
    ensures Image(table, 34, SV).Some? && Classes[Image(table, 34, SV).value] == Classes[34]
  {
    VerticalFlipOfP35(table);
    ClassesFrom27();
  }

  /** The vertical flip keeps the class of P36: its image P36 is in the family of P1. */
  lemma KeptByVerticalFlipP36(table: seq<Grid>)
    requires HasLayouts(table)
    ensures Image(table, 35, SV).Some? && Classes[Image(table, 35, SV).value] == Classes[35]
  {
    VerticalFlipOfP36(table);
    ClassesFrom27();
  }

  /** The vertical flip keeps the class of P1 .. P6. */
  lemma ClassesKeptByVerticalFlipFrom0(table: seq<Grid>, i: int)
    requires HasLayouts(table) && 0 <= i < 6
    ensures Image(table, i, SV).Some? && Classes[Image(table, i, SV).value] == Classes[i]
  {
    if i == 0 {
      KeptByVerticalFlipP1(table);
    } else if i == 1 {
      KeptByVerticalFlipP2(table);
    } else if i == 2 {
      KeptByVerticalFlipP3(table);
    } else if i == 3 {
      KeptByVerticalFlipP4(table);
    } else if i == 4 {
      KeptByVerticalFlipP5(table);
    } else {
      KeptByVerticalFlipP6(table);
    }
  }

  /** The vertical flip keeps the class of P7 .. P12. */
  lemma ClassesKeptByVerticalFlipFrom6(table: seq<Grid>, i: int)
    requires HasLayouts(table) && 6 <= i < 12
    ensures Image(table, i, SV).Some? && Classes[Image(table, i, SV).value] == Classes[i]
  {
    if i == 6 {
      KeptByVerticalFlipP7(table);
    } else if i == 7 {
      KeptByVerticalFlipP8(table);
    } else if i == 8 {
      KeptByVerticalFlipP9(table);
    } else if i == 9 {
      KeptByVerticalFlipP10(table);
    } else if i == 10 {
      KeptByVerticalFlipP11(table);
    } else {
      KeptByVerticalFlipP12(table);
    }
  }

  /** The vertical flip keeps the class of P13 .. P18. */
  lemma ClassesKeptByVerticalFlipFrom12(table: seq<Grid>, i: int)
    requires HasLayouts(table) && 12 <= i < 18
    ensures Image(table, i, SV).Some? && Classes[Image(table, i, SV).value] == Classes[i]
  {
    if i == 12 {
      KeptByVerticalFlipP13(table);
    } else if i == 13 {
      KeptByVerticalFlipP14(table);
    } else if i == 14 {
      KeptByVerticalFlipP15(table);
    } else if i == 15 {
      KeptByVerticalFlipP16(table);
    } else if i == 16 {
      KeptByVerticalFlipP17(table);
    } else {
      KeptByVerticalFlipP18(table);
    }
  }

  /** The vertical flip keeps the class of P19 .. P24. */
  lemma ClassesKeptByVerticalFlipFrom18(table: seq<Grid>, i: int)
    requires HasLayouts(table) && 18 <= i < 24
    ensures Image(table, i, SV).Some? && Classes[Image(table, i, SV).value] == Classes[i]
  {
    if i == 18 {
      KeptByVerticalFlipP19(table);
    } else if i == 19 {
      KeptByVerticalFlipP20(table);
    } else if i == 20 {
      KeptByVerticalFlipP21(table);
    } else if i == 21 {
      KeptByVerticalFlipP22(table);
    } else if i == 22 {
      KeptByVerticalFlipP23(table);
    } else {
      KeptByVerticalFlipP24(table);
    }
  }

  /** The vertical flip keeps the class of P25 .. P30. */
  lemma ClassesKeptByVerticalFlipFrom24(table: seq<Grid>, i: int)
    requires HasLayouts(table) && 24 <= i < 30
    ensures Image(table, i, SV).Some? && Classes[Image(table, i, SV).value] == Classes[i]
  {
    if i == 24 {
      KeptByVerticalFlipP25(table);
    } else if i == 25 {
      KeptByVerticalFlipP26(table);
    } else if i == 26 {
      KeptByVerticalFlipP27(table);
    } else if i == 27 {
      KeptByVerticalFlipP28(table);
    } else if i == 28 {
      KeptByVerticalFlipP29(table);
    } else {
      KeptByVerticalFlipP30(table);
    }
  }

  /** The vertical flip keeps the class of P31 .. P36. */
  lemma ClassesKeptByVerticalFlipFrom30(table: seq<Grid>, i: int)
    requires HasLayouts(table) && 30 <= i < 36
    ensures Image(table, i, SV).Some? && Classes[Image(table, i, SV).value] == Classes[i]
  {
    if i == 30 {
      KeptByVerticalFlipP31(table);
    } else if i == 31 {
      KeptByVerticalFlipP32(table);
    } else if i == 32 {
      KeptByVerticalFlipP33(table);
    } else if i == 33 {
      KeptByVerticalFlipP34(table);
    } else if i == 34 {
      KeptByVerticalFlipP35(table);
    } else {
      KeptByVerticalFlipP36(table);
    }
  }

  /** The vertical flip sends every tiling of the table to a tiling of the same class. */
  lemma ClassesKeptByVerticalFlip(table: seq<Grid>)
    requires HasLayouts(table)
    ensures Respects(table, Classes, SV)
  {
    forall i | 0 <= i < 36
      ensures Image(table, i, SV).Some? && Classes[Image(table, i, SV).value] == Classes[i]
    {
      if i < 6 {
        ClassesKeptByVerticalFlipFrom0(table, i);
      } else if i < 12 {
        ClassesKeptByVerticalFlipFrom6(table, i);
      } else if i < 18 {
        ClassesKeptByVerticalFlipFrom12(table, i);
      } else if i < 24 {
        ClassesKeptByVerticalFlipFrom18(table, i);
      } else if i < 30 {
        ClassesKeptByVerticalFlipFrom24(table, i);
      } else {
        ClassesKeptByVerticalFlipFrom30(table, i);
      }
    }
  }

  /** P4 is related to P2, the least tiling of its family. */
  lemma ReachesP4(table: seq<Grid>)
    requires HasLayouts(table)
    ensures Related(table, 3, 1)
  {
    VerticalFlipOfP2(table);
    assert SameShape(Transform(table[1], SV), table[3]);
    RelatedSymmetric(table, 1, 3);
  }

  /** P9 is related to P6, the least tiling of its family. */
  lemma ReachesP9(table: seq<Grid>)
    requires HasLayouts(table)
    ensures Related(table, 8, 5)
  {
    VerticalFlipOfP6(table);
    assert SameShape(Transform(table[5], SV), table[8]);
    RelatedSymmetric(table, 5, 8);
  }

  /** P10 is related to P7, the least tiling of its family. */
  lemma ReachesP10(table: seq<Grid>)
    requires HasLayouts(table)
    ensures Related(table, 9, 6)
  {
    VerticalFlipOfP7(table);
    assert SameShape(Transform(table[6], SV), table[9]);
    RelatedSymmetric(table, 6, 9);
  }

  /** P12 is related to P2, the least tiling of its family. */
  lemma ReachesP12(table: seq<Grid>)
    requires HasLayouts(table)
    ensures Related(table, 11, 1)
  {
    VerticalFlipOfP25(table);
    assert SameShape(Transform(table[24], SV), table[11]);
    RelatedSymmetric(table, 24, 11);
    ReachesP25(table);
    RelatedTransitive(table, 11, 24, 1);
  }

  /** P13 is related to P5, the least tiling of its family. */
  lemma ReachesP13(table: seq<Grid>)
    requires HasLayouts(table)
    ensures Related(table, 12, 4)
  {
    QuarterTurnOfP5(table);
    assert SameShape(Transform(table[4], R90), table[12]);
    RelatedSymmetric(table, 4, 12);
  }

  /** P14 is related to P7, the least tiling of its family. */
  lemma ReachesP14(table: seq<Grid>)
    requires HasLayouts(table)
    ensures Related(table, 13, 6)
  {
    QuarterTurnOfP7(table);
    assert SameShape(Transform(table[6], R90), table[13]);
    RelatedSymmetric(table, 6, 13);
  }

  /** P16 is related to P2, the least tiling of its family. */
  lemma ReachesP16(table: seq<Grid>)
    requires HasLayouts(table)
    ensures Related(table, 15, 1)
  {
    QuarterTurnOfP4(table);
    assert SameShape(Transform(table[3], R90), table[15]);
    RelatedSymmetric(table, 3, 15);
    ReachesP4(table);
    RelatedTransitive(table, 15, 3, 1);
  }

  /** P17 is related to P7, the least tiling of its family. */
  lemma ReachesP17(table: seq<Grid>)
    requires HasLayouts(table)
    ensures Related(table, 16, 6)
  {
    QuarterTurnOfP14(table);
    assert SameShape(Transform(table[13], R90), table[16]);
    RelatedSymmetric(table, 13, 16);
    ReachesP14(table);
    RelatedTransitive(table, 16, 13, 6);
  }

  /** P18 is related to P3, the least tiling of its family. */
  lemma ReachesP18(table: seq<Grid>)
    requires HasLayouts(table)
    ensures Related(table, 17, 2)
  {
    QuarterTurnOfP3(table);
    assert SameShape(Transform(table[2], R90), table[17]);
    RelatedSymmetric(table, 2, 17);
  }

  /** P19 is related to P3, the least tiling of its family. */
  lemma ReachesP19(table: seq<Grid>)
    requires HasLayouts(table)
    ensures Related(table, 18, 2)
  {
    QuarterTurnOfP18(table);
    assert SameShape(Transform(table[17], R90), table[18]);
    RelatedSymmetric(table, 17, 18);
    ReachesP18(table);
    RelatedTransitive(table, 18, 17, 2);
  }

  /** P20 is related to P7, the least tiling of its family. */
  lemma ReachesP20(table: seq<Grid>)
    requires HasLayouts(table)
    ensures Related(table, 19, 6)
  {
    QuarterTurnOfP10(table);
    assert SameShape(Transform(table[9], R90), table[19]);
    RelatedSymmetric(table, 9, 19);
    ReachesP10(table);
    RelatedTransitive(table, 19, 9, 6);
  }

  /** P21 is related to P11, the least tiling of its family. */
  lemma ReachesP21(table: seq<Grid>)
    requires HasLayouts(table)
    ensures Related(table, 20, 10)
  {
    QuarterTurnOfP11(table);
    assert SameShape(Transform(table[10], R90), table[20]);
    RelatedSymmetric(table, 10, 20);
  }

  /** P22 is related to P7, the least tiling of its family. */
  lemma ReachesP22(table: seq<Grid>)
    requires HasLayouts(table)
    ensures Related(table, 21, 6)
  {
    QuarterTurnOfP17(table);
    assert SameShape(Transform(table[16], R90), table[21]);
    RelatedSymmetric(table, 16, 21);
    ReachesP17(table);
    RelatedTransitive(table, 21, 16, 6);
  }

  /** P23 is related to P6, the least tiling of its family. */
  lemma ReachesP23(table: seq<Grid>)
    requires HasLayouts(table)
    ensures Related(table, 22, 5)
  {
    QuarterTurnOfP9(table);
    assert SameShape(Transform(table[8], R90), table[22]);
    RelatedSymmetric(table, 8, 22);
    ReachesP9(table);
    RelatedTransitive(table, 22, 8, 5);
  }

  /** P24 is related to P8, the least tiling of its family. */
  lemma ReachesP24(table: seq<Grid>)
    requires HasLayouts(table)
    ensures Related(table, 23, 7)
  {
    QuarterTurnOfP8(table);
    assert SameShape(Transform(table[7], R90), table[23]);
    RelatedSymmetric(table, 7, 23);
  }

  /** P25 is related to P2, the least tiling of its family. */
  lemma ReachesP25(table: seq<Grid>)
    requires HasLayouts(table)
    ensures Related(table, 24, 1)
  {
    QuarterTurnOfP33(table);
    assert SameShape(Transform(table[32], R90), table[24]);
    RelatedSymmetric(table, 32, 24);
    ReachesP33(table);
    RelatedTransitive(table, 24, 32, 1);
  }

  /** P26 is related to P15, the least tiling of its family. */
  lemma ReachesP26(table: seq<Grid>)
    requires HasLayouts(table)
    ensures Related(table, 25, 14)
  {
    VerticalFlipOfP15(table);
    assert SameShape(Transform(table[14], SV), table[25]);
    RelatedSymmetric(table, 14, 25);
  }

  /** P27 is related to P7, the least tiling of its family. */
  lemma ReachesP27(table: seq<Grid>)
    requires HasLayouts(table)
    ensures Related(table, 26, 6)
  {
    VerticalFlipOfP14(table);
    assert SameShape(Transform(table[13], SV), table[26]);
    RelatedSymmetric(table, 13, 26);
    ReachesP14(table);
    RelatedTransitive(table, 26, 13, 6);
  }

  /** P28 is related to P5, the least tiling of its family. */
  lemma ReachesP28(table: seq<Grid>)
    requires HasLayouts(table)
    ensures Related(table, 27, 4)
  {
    VerticalFlipOfP13(table);
    assert SameShape(Transform(table[12], SV), table[27]);
    RelatedSymmetric(table, 12, 27);
    ReachesP13(table);
    RelatedTransitive(table, 27, 12, 4);
  }

  /** P29 is related to P2, the least tiling of its family. */
  lemma ReachesP29(table: seq<Grid>)
    requires HasLayouts(table)
    ensures Related(table, 28, 1)
  {
    QuarterTurnOfP25(table);
    assert SameShape(Transform(table[24], R90), table[28]);
    RelatedSymmetric(table, 24, 28);
    ReachesP25(table);
    RelatedTransitive(table, 28, 24, 1);
  }

  /** P30 is related to P7, the least tiling of its family. */
  lemma ReachesP30(table: seq<Grid>)
    requires HasLayouts(table)
    ensures Related(table, 29, 6)
  {
    VerticalFlipOfP17(table);
    assert SameShape(Transform(table[16], SV), table[29]);
    RelatedSymmetric(table, 16, 29);
    ReachesP17(table);
    RelatedTransitive(table, 29, 16, 6);
  }

  /** P31 is related to P3, the least tiling of its family. */
  lemma ReachesP31(table: seq<Grid>)
    requires HasLayouts(table)
    ensures Related(table, 30, 2)
  {
    VerticalFlipOfP18(table);
    assert SameShape(Transform(table[17], SV), table[30]);
    RelatedSymmetric(table, 17, 30);
    ReachesP18(table);
    RelatedTransitive(table, 30, 17, 2);
  }

  /** P32 is related to P5, the least tiling of its family. */
  lemma ReachesP32(table: seq<Grid>)
    requires HasLayouts(table)
    ensures Related(table, 31, 4)
  {
    QuarterTurnOfP13(table);
    assert SameShape(Transform(table[12], R90), table[31]);
    RelatedSymmetric(table, 12, 31);
    ReachesP13(table);
    RelatedTransitive(table, 31, 12, 4);
  }

  /** P33 is related to P2, the least tiling of its family. */
  lemma ReachesP33(table: seq<Grid>)
    requires HasLayouts(table)
    ensures Related(table, 32, 1)
  {
    QuarterTurnOfP2(table);
    assert SameShape(Transform(table[1], R90), table[32]);
    RelatedSymmetric(table, 1, 32);
  }

  /** P34 is related to P6, the least tiling of its family. */
  lemma ReachesP34(table: seq<Grid>)
    requires HasLayouts(table)
    ensures Related(table, 33, 5)
  {
    QuarterTurnOfP6(table);
    assert SameShape(Transform(table[5], R90), table[33]);
    RelatedSymmetric(table, 5, 33);
  }

  /** P35 is related to P2, the least tiling of its family. */
  lemma ReachesP35(table: seq<Grid>)
    requires HasLayouts(table)
    ensures Related(table, 34, 1)
  {
    VerticalFlipOfP33(table);
    assert SameShape(Transform(table[32], SV), table[34]);
    RelatedSymmetric(table, 32, 34);
    ReachesP33(table);
    RelatedTransitive(table, 34, 32, 1);
  }

  /** P36 is related to P1, the least tiling of its family. */
  lemma ReachesP36(table: seq<Grid>)
    requires HasLayouts(table)
    ensures Related(table, 35, 0)
  {
    QuarterTurnOfP1(table);
    assert SameShape(Transform(table[0], R90), table[35]);
    RelatedSymmetric(table, 0, 35);
  }

  /** P1 is related to the name of its class. */
  lemma NamedP1(table: seq<Grid>)
    requires HasLayouts(table)
    ensures Related(table, 0, Classes[0])
  {
    ClassesFrom0();
    RelatedReflexive(table, 0);
  }

  /** P2 is related to the name of its class. */
  lemma NamedP2(table: seq<Grid>)
    requires HasLayouts(table)
    ensures Related(table, 1, Classes[1])
  {
    ClassesFrom0();
    RelatedReflexive(table, 1);
  }

  /** P3 is related to the name of its class. */
  lemma NamedP3(table: seq<Grid>)
    requires HasLayouts(table)
    ensures Related(table, 2, Classes[2])
  {
    ClassesFrom0();
    RelatedReflexive(table, 2);
  }

  /** P4 is related to the name of its class. */
  lemma NamedP4(table: seq<Grid>)
    requires HasLayouts(table)
    ensures Related(table, 3, Classes[3])
  {
    ClassesFrom0();
    ReachesP4(table);
  }

  /** P5 is related to the name of its class. */
  lemma NamedP5(table: seq<Grid>)
    requires HasLayouts(table)
    ensures Related(table, 4, Classes[4])
  {
    ClassesFrom0();
    RelatedReflexive(table, 4);
  }

  /** P6 is related to the name of its class. */
  lemma NamedP6(table: seq<Grid>)
    requires HasLayouts(table)
    ensures Related(table, 5, Classes[5])
  {
    ClassesFrom0();
    RelatedReflexive(table, 5);
  }

  /** P7 is related to the name of its class. */
  lemma NamedP7(table: seq<Grid>)
    requires HasLayouts(table)
    ensures Related(table, 6, Classes[6])
  {
    ClassesFrom0();
    RelatedReflexive(table, 6);
  }

  /** P8 is related to the name of its class. */
  lemma NamedP8(table: seq<Grid>)
    requires HasLayouts(table)
    ensures Related(table, 7, Classes[7])
  {
    ClassesFrom0();
    RelatedReflexive(table, 7);
  }

  /** P9 is related to the name of its class. */
  lemma NamedP9(table: seq<Grid>)
    requires HasLayouts(table)
    ensures Related(table, 8, Classes[8])
  {
    ClassesFrom0();
    ReachesP9(table);
  }

  /** P10 is related to the name of its class. */
  lemma NamedP10(table: seq<Grid>)
    requires HasLayouts(table)
    ensures Related(table, 9, Classes[9])
  {
    ClassesFrom9();
    ReachesP10(table);
  }

  /** P11 is related to the name of its class. */
  lemma NamedP11(table: seq<Grid>)
    requires HasLayouts(table)
    ensures Related(table, 10, Classes[10])
  {
    ClassesFrom9();
    RelatedReflexive(table, 10);
  }

  /** P12 is related to the name of its class. */
  lemma NamedP12(table: seq<Grid>)
    requires HasLayouts(table)
    ensures Related(table, 11, Classes[11])
  {
    ClassesFrom9();
    ReachesP12(table);
  }

  /** P13 is related to the name of its class. */
  lemma NamedP13(table: seq<Grid>)
    requires HasLayouts(table)
    ensures Related(table, 12, Classes[12])
  {
    ClassesFrom9();
    ReachesP13(table);
  }

  /** P14 is related to the name of its class. */
  lemma NamedP14(table: seq<Grid>)
    requires HasLayouts(table)
    ensures Related(table, 13, Classes[13])
  {
    ClassesFrom9();
    ReachesP14(table);
  }

  /** P15 is related to the name of its class. */
  lemma NamedP15(table: seq<Grid>)
    requires HasLayouts(table)
    ensures Related(table, 14, Classes[14])
  {
    ClassesFrom9();
    RelatedReflexive(table, 14);
  }

  /** P16 is related to the name of its class. */
  lemma NamedP16(table: seq<Grid>)
    requires HasLayouts(table)
    ensures Related(table, 15, Classes[15])
  {
    ClassesFrom9();
    ReachesP16(table);
  }

  /** P17 is related to the name of its class. */
  lemma NamedP17(table: seq<Grid>)
    requires HasLayouts(table)
    ensures Related(table, 16, Classes[16])
  {
    ClassesFrom9();
    ReachesP17(table);
  }

  /** P18 is related to the name of its class. */
  lemma NamedP18(table: seq<Grid>)
    requires HasLayouts(table)
    ensures Related(table, 17, Classes[17])
  {
    ClassesFrom9();
    ReachesP18(table);
  }

  /** P19 is related to the name of its class. */
  lemma NamedP19(table: seq<Grid>)
    requires HasLayouts(table)
    ensures Related(table, 18, Classes[18])
  {
    ClassesFrom18();
    ReachesP19(table);
  }

  /** P20 is related to the name of its class. */
  lemma NamedP20(table: seq<Grid>)
    requires HasLayouts(table)
    ensures Related(table, 19, Classes[19])
  {
    ClassesFrom18();
    ReachesP20(table);
  }

  /** P21 is related to the name of its class. */
  lemma NamedP21(table: seq<Grid>)
    requires HasLayouts(table)
    ensures Related(table, 20, Classes[20])
  {
    ClassesFrom18();
    ReachesP21(table);
  }

  /** P22 is related to the name of its class. */
  lemma NamedP22(table: seq<Grid>)
    requires HasLayouts(table)
    ensures Related(table, 21, Classes[21])
  {
    ClassesFrom18();
    ReachesP22(table);
  }

  /** P23 is related to the name of its class. */
  lemma NamedP23(table: seq<Grid>)
    requires HasLayouts(table)
    ensures Related(table, 22, Classes[22])
  {
    ClassesFrom18();
    ReachesP23(table);
  }

  /** P24 is related to the name of its class. */
  lemma NamedP24(table: seq<Grid>)
    requires HasLayouts(table)
    ensures Related(table, 23, Classes[23])
  {
    ClassesFrom18();
    ReachesP24(table);
  }

  /** P25 is related to the name of its class. */
  lemma NamedP25(table: seq<Grid>)
    requires HasLayouts(table)
    ensures Related(table, 24, Classes[24])
  {
    ClassesFrom18();
    ReachesP25(table);
  }

  /** P26 is related to the name of its class. */
  lemma NamedP26(table: seq<Grid>)
    requires HasLayouts(table)
    ensures Related(table, 25, Classes[25])
  {
    ClassesFrom18();
    ReachesP26(table);
  }

  /** P27 is related to the name of its class. */
  lemma NamedP27(table: seq<Grid>)
    requires HasLayouts(table)
    ensures Related(table, 26, Classes[26])
  {
    ClassesFrom18();
    ReachesP27(table);
  }

  /** P28 is related to the name of its class. */
  lemma NamedP28(table: seq<Grid>)
    requires HasLayouts(table)
    ensures Related(table, 27, Classes[27])
  {
    ClassesFrom27();
    ReachesP28(table);
  }

  /** P29 is related to the name of its class. */
  lemma NamedP29(table: seq<Grid>)
    requires HasLayouts(table)
    ensures Related(table, 28, Classes[28])
  {
    ClassesFrom27();
    ReachesP29(table);
  }

  /** P30 is related to the name of its class. */
  lemma NamedP30(table: seq<Grid>)
    requires HasLayouts(table)
    ensures Related(table, 29, Classes[29])
  {
    ClassesFrom27();
    ReachesP30(table);
  }

  /** P31 is related to the name of its class. */
  lemma NamedP31(table: seq<Grid>)
    requires HasLayouts(table)
    ensures Related(table, 30, Classes[30])
  {
    ClassesFrom27();
    ReachesP31(table);
  }

  /** P32 is related to the name of its class. */
  lemma NamedP32(table: seq<Grid>)
    requires HasLayouts(table)
    ensures Related(table, 31, Classes[31])
  {
    ClassesFrom27();
    ReachesP32(table);
  }

  /** P33 is related to the name of its class. */
  lemma NamedP33(table: seq<Grid>)
    requires HasLayouts(table)
    ensures Related(table, 32, Classes[32])
  {
    ClassesFrom27();
    ReachesP33(table);
  }

  /** P34 is related to the name of its class. */
  lemma NamedP34(table: seq<Grid>)
    requires HasLayouts(table)
    ensures Related(table, 33, Classes[33])
  {
    ClassesFrom27();
    ReachesP34(table);
  }

  /** P35 is related to the name of its class. */
  lemma NamedP35(table: seq<Grid>)
    requires HasLayouts(table)
    ensures Related(table, 34, Classes[34])
  {
    ClassesFrom27();
    ReachesP35(table);
  }

  /** P36 is related to the name of its class. */
  lemma NamedP36(table: seq<Grid>)
    requires HasLayouts(table)
    ensures Related(table, 35, Classes[35])
  {
    ClassesFrom27();
    ReachesP36(table);
  }

  /** P1 .. P6 are related to the names of their classes. */
  lemma RelatedToClassNameFrom0(table: seq<Grid>, i: int)
    requires HasLayouts(table) && 0 <= i < 6
    ensures Related(table, i, Classes[i])
  {
    if i == 0 {
      NamedP1(table);
    } else if i == 1 {
      NamedP2(table);
    } else if i == 2 {
      NamedP3(table);
    } else if i == 3 {
      NamedP4(table);
    } else if i == 4 {
      NamedP5(table);
    } else {
      NamedP6(table);
    }
  }

  /** P7 .. P12 are related to the names of their classes. */
  lemma RelatedToClassNameFrom6(table: seq<Grid>, i: int)
    requires HasLayouts(table) && 6 <= i < 12
    ensures Related(table, i, Classes[i])
  {
    if i == 6 {
      NamedP7(table);
    } else if i == 7 {
      NamedP8(table);
    } else if i == 8 {
      NamedP9(table);
    } else if i == 9 {
      NamedP10(table);
    } else if i == 10 {
      NamedP11(table);
    } else {
      NamedP12(table);
    }
  }

  /** P13 .. P18 are related to the names of their classes. */
  lemma RelatedToClassNameFrom12(table: seq<Grid>, i: int)
    requires HasLayouts(table) && 12 <= i < 18
    ensures Related(table, i, Classes[i])
  {
    if i == 12 {
      NamedP13(table);
    } else if i == 13 {
      NamedP14(table);
    } else if i == 14 {
      NamedP15(table);
    } else if i == 15 {
      NamedP16(table);
    } else if i == 16 {
      NamedP17(table);
    } else {
      NamedP18(table);
    }
  }

  /** P19 .. P24 are related to the names of their classes. */
  lemma RelatedToClassNameFrom18(table: seq<Grid>, i: int)
    requires HasLayouts(table) && 18 <= i < 24
    ensures Related(table, i, Classes[i])
  {
    if i == 18 {
      NamedP19(table);
    } else if i == 19 {
      NamedP20(table);
    } else if i == 20 {
      NamedP21(table);
    } else if i == 21 {
      NamedP22(table);
    } else if i == 22 {
      NamedP23(table);
    } else {
      NamedP24(table);
    }
  }

  /** P25 .. P30 are related to the names of their classes. */
  lemma RelatedToClassNameFrom24(table: seq<Grid>, i: int)
    requires HasLayouts(table) && 24 <= i < 30
    ensures Related(table, i, Classes[i])
  {
    if i == 24 {
      NamedP25(table);
    } else if i == 25 {
      NamedP26(table);
    } else if i == 26 {
      NamedP27(table);
    } else if i == 27 {
      NamedP28(table);
    } else if i == 28 {
      NamedP29(table);
    } else {
      NamedP30(table);
    }
  }

  /** P31 .. P36 are related to the names of their classes. */
  lemma RelatedToClassNameFrom30(table: seq<Grid>, i: int)
    requires HasLayouts(table) && 30 <= i < 36
    ensures Related(table, i, Classes[i])
  {
    if i == 30 {
      NamedP31(table);
    } else if i == 31 {
      NamedP32(table);
    } else if i == 32 {
      NamedP33(table);
    } else if i == 33 {
      NamedP34(table);
    } else if i == 34 {
      NamedP35(table);
    } else {
      NamedP36(table);
    }
  }

  /** Every tiling of the table is related to the name of its class. */
  lemma RelatedToClassName(table: seq<Grid>, i: int)
    requires HasLayouts(table) && 0 <= i < 36
    ensures Related(table, i, Classes[i])
  {
    if i < 6 {
      RelatedToClassNameFrom0(table, i);
    } else if i < 12 {
      RelatedToClassNameFrom6(table, i);
    } else if i < 18 {
      RelatedToClassNameFrom12(table, i);
    } else if i < 24 {
      RelatedToClassNameFrom18(table, i);
    } else if i < 30 {
      RelatedToClassNameFrom24(table, i);
    } else {
      RelatedToClassNameFrom30(table, i);
    }
  }

  /** Every map of the group keeps the classes of the table. */
  lemma ClassesRespected(table: seq<Grid>)
    requires HasLayouts(table)
    ensures forall t :: Respects(table, Classes, t)
  {
    LayoutsDistinct(table);
    ClassesKeptByQuarterTurn(table);
    ClassesKeptByVerticalFlip(table);
    RespectsGenerators(table, Classes);
  }

  /** A tiling of the table comes first in its family exactly when it names its class. */
  lemma FirstsAreNames(table: seq<Grid>)
    requires HasLayouts(table)
    ensures forall i :: 0 <= i < 36 ==> (FirstOfOrbit(table, i) <==> Classes[i] == i)
  {
    LayoutsDistinct(table);
    ClassesRespected(table);
    ClassNamesBelow();
    forall i | 0 <= i < 36
      ensures FirstOfOrbit(table, i) <==> Classes[i] == i
    {
      RelatedToClassName(table, i);
      FirstIffNamesClass(table, Classes, i);
    }
  }

  /** Nine class names: P1, P2, P3, P5, P6, P7, P8, P11, P15. */
  lemma NineNames()
    ensures SelfNamed(Classes, 36) == 9
  {

    ClassesFrom0();
    ClassesFrom9();
    ClassesFrom18();
    ClassesFrom27();
    assert SelfNamed(Classes, 1) == 1;
    assert SelfNamed(Classes, 2) == 2;
    assert SelfNamed(Classes, 3) == 3;
    assert SelfNamed(Classes, 4) == 3;
    assert SelfNamed(Classes, 5) == 4;
    assert SelfNamed(Classes, 6) == 5;
    assert SelfNamed(Classes, 7) == 6;
    assert SelfNamed(Classes, 8) == 7;
    assert SelfNamed(Classes, 9) == 7;
    assert SelfNamed(Classes, 10) == 7;
    assert SelfNamed(Classes, 11) == 8;
    assert SelfNamed(Classes, 12) == 8;
    assert SelfNamed(Classes, 13) == 8;
    assert SelfNamed(Classes, 14) == 8;
    assert SelfNamed(Classes, 15) == 9;
    assert SelfNamed(Classes, 16) == 9;
    assert SelfNamed(Classes, 17) == 9;
    assert SelfNamed(Classes, 18) == 9;
    assert SelfNamed(Classes, 19) == 9;
    assert SelfNamed(Classes, 20) == 9;
    assert SelfNamed(Classes, 21) == 9;
    assert SelfNamed(Classes, 22) == 9;
    assert SelfNamed(Classes, 23) == 9;
    assert SelfNamed(Classes, 24) == 9;
    assert SelfNamed(Classes, 25) == 9;
    assert SelfNamed(Classes, 26) == 9;
    assert SelfNamed(Classes, 27) == 9;
    assert SelfNamed(Classes, 28) == 9;
    assert SelfNamed(Classes, 29) == 9;
    assert SelfNamed(Classes, 30) == 9;
    assert SelfNamed(Classes, 31) == 9;
    assert SelfNamed(Classes, 32) == 9;
    assert SelfNamed(Classes, 33) == 9;
    assert SelfNamed(Classes, 34) == 9;
    assert SelfNamed(Classes, 35) == 9;
    assert SelfNamed(Classes, 36) == 9;
  }

  /** Exactly nine of the 36 tilings come first in their family. */
  lemma NineFirsts(table: seq<Grid>)
    requires HasLayouts(table)
    ensures FirstsBelow(table, 36) == 9
  {
    FirstsAreNames(table);
    FirstsBelowNamed(table, Classes, 36);
    NineNames();
  }

  /**
   * On the table the lookup in `NORM_PATTERNS` finds every transformed tiling, so the
   * orbit loop never reaches its `except ValueError` branch.
   */
  lemma LookupNeverMisses(table: seq<Grid>)
    requires HasLayouts(table)
    ensures forall i, t :: 0 <= i < 36 ==> Image(table, i, t).Some?
  {
    ClassesRespected(table);
    forall t, i | 0 <= i < 36
      ensures Image(table, i, t).Some?
    {
      assert Respects(table, Classes, t);
    }
  }

  /**
   * The orbit loop on the table: the families are pairwise disjoint, together hold every
   * index 0 .. 35, each is the orbit of each of its members, there are nine of them, and
   * each member is found by one of the eight maps.
   */
  method OrbitsOfLayouts(table: seq<Grid>) returns (orbits: seq<set<nat>>)
    requires HasLayouts(table)
    ensures |orbits| == 9
    ensures PairwiseDisjoint(orbits)
    ensures forall i: nat :: i < 36 ==> i in Union(orbits)
    ensures forall k, i: nat :: 0 <= k < |orbits| && i in orbits[k] ==> i < 36
    ensures forall k :: 0 <= k < |orbits| ==> OrbitOfEach(table, orbits[k])
    ensures forall i, t :: 0 <= i < 36 ==> Image(table, i, t).Some?
  {
    LayoutsDistinct(table);
    LookupNeverMisses(table);
    NineFirsts(table);
    orbits := ComputeOrbits(table);
  }

  /** The lookup in `NORM_PATTERNS` finds the image of every tiling of `PATTERNS` under every map. */
  lemma PatternsLookupNeverMisses()
    ensures forall i, t :: 0 <= i < 36 ==> Image(Patterns(), i, t).Some?
  {
    PatternsHaveLayouts();
    LookupNeverMisses(Patterns());
  }

  /**
   * The orbit loop as the program runs it, on `PATTERNS`: nine families, which partition
   * the indices 0 .. 35, each the orbit of each of its members. This is the program's
   * `assert len(orbits) == 9`.
   */
  method OrbitsOfPatterns() returns (orbits: seq<set<nat>>)
    ensures |orbits| == 9
    ensures PairwiseDisjoint(orbits)
    ensures forall i: nat :: i < 36 ==> i in Union(orbits)
    ensures forall k, i: nat :: 0 <= k < |orbits| && i in orbits[k] ==> i < 36
    ensures forall k :: 0 <= k < |orbits| ==> OrbitOfEach(Patterns(), orbits[k])
  {
    PatternsHaveLayouts();
    orbits := OrbitsOfLayouts(Patterns());
  }
}
