/**
 * The vertex sequence of the cube editor as a value: the laws that
 * `getInitVertexArray`, `setVirtualVertexPos` and `resetVirtualVertexPos`
 * (src/component/CubeEditor.ts) maintain, stated and proved on
 * sequences of vertex states. Object identity lives in module Editor.
 */
module Layout {
  import opened Wrappers
  import opened Geometry

  /** `_type` of a vertex: "main" or "virtual". */
  datatype VertexType = Main | Virtual

  /** The two Bézier control points of a curved vertex (`_curvePoints`). */
  datatype Handles = Handles(first: Point, second: Point)

  /** What a vertex holds: its type, its position and, when it is curved, its handles. */
  datatype VState = VState(kind: VertexType, pos: Point, curve: Option<Handles>)

  /** `index === length - 1 ? 0 : index + 1`: the cyclic successor of an index. */
  function NextIndex(i: nat, n: nat): (j: nat)
    requires i < n
    ensures j < n
    ensures j == (i + 1) % n
  {
    if i == n - 1 then
      assert (i + 1) % n == n % n == 0;
      0
    else
      assert (i + 1) % n == i + 1;
      i + 1
  }

  // ---------------------------------------------------------------------
  // The main subsequence (`filter(vertex => vertex._type === "main")`)
  // ---------------------------------------------------------------------

  function Mains(s: seq<VState>): (m: seq<VState>)
    ensures |m| <= |s|
    ensures forall i :: 0 <= i < |m| ==> m[i].kind == Main
  {
    if s == [] then []
    else (if s[0].kind == Main then [s[0]] else []) + Mains(s[1..])
  }

  predicate AllMain(m: seq<VState>)
  {
    forall i :: 0 <= i < |m| ==> m[i].kind == Main
  }

  lemma {:induction false} MainsAppend(a: seq<VState>, b: seq<VState>)
    ensures Mains(a + b) == Mains(a) + Mains(b)
  {
    if a == [] {
      assert a + b == b;
    } else {
      assert (a + b)[1..] == a[1..] + b;
      MainsAppend(a[1..], b);
    }
  }

  /** A prefix is the shorter prefix and its last element. */
  lemma PrefixSnoc<T>(m: seq<T>, k: nat)
    requires 0 < k <= |m|
    ensures m[..k - 1] + [m[k - 1]] == m[..k]
  {
  }

  /** A sequence that has only mains is its own main subsequence. */
  lemma {:induction false} MainsOfAllMain(m: seq<VState>)
    requires AllMain(m)
    ensures Mains(m) == m
  {
    if m != [] {
      MainsOfAllMain(m[1..]);
    }
  }

  /** The number of non-curved vertices in a sequence. */
  function CountStraight(m: seq<VState>): (n: nat)
    ensures n <= |m|
  {
    if m == [] then 0
    else CountStraight(m[..|m| - 1]) + (if m[|m| - 1].curve.None? then 1 else 0)
  }

  // ---------------------------------------------------------------------
  // Rebuilding the virtual vertices (`resetVirtualVertexPos`)
  // ---------------------------------------------------------------------

  /** The fresh virtual vertex placed after main k: midway to the next main, cyclically. */
  function VirtualAfter(m: seq<VState>, k: nat): VState
    requires k < |m|
  {
    VState(Virtual, Center(m[k].pos, m[NextIndex(k, |m|)].pos), None)
  }

  /** What one iteration over main k pushes: the main itself, then a virtual unless it is curved. */
  function Block(m: seq<VState>, k: nat): seq<VState>
    requires k < |m|
  {
    if m[k].curve.Some? then [m[k]] else [m[k], VirtualAfter(m, k)]
  }

  /** The list after the first k iterations over the mains. */
  function ExpandPrefix(m: seq<VState>, k: nat): seq<VState>
    requires k <= |m|
  {
    if k == 0 then [] else ExpandPrefix(m, k - 1) + Block(m, k - 1)
  }

  /** The vertex list that `resetVirtualVertexPos` produces from s. */
  function Rebuild(s: seq<VState>): seq<VState>
  {
    var m := Mains(s);
    ExpandPrefix(m, |m|)
  }

  lemma {:induction false} ExpandPrefixLength(m: seq<VState>, k: nat)
    requires k <= |m|
    ensures |ExpandPrefix(m, k)| == k + CountStraight(m[..k])
  {
    if k > 0 {
      ExpandPrefixLength(m, k - 1);
      assert m[..k][..k - 1] == m[..k - 1];
    }
  }

  lemma {:induction false} BlockMains(m: seq<VState>, k: nat)
    requires k < |m| && AllMain(m)
    ensures Mains(Block(m, k)) == [m[k]]
  {
    var b := Block(m, k);
    assert Mains([]) == [];
    if |b| == 2 {
      assert b[1..] == [VirtualAfter(m, k)];
      assert Mains(b[1..]) == [];
    } else {
      assert b[1..] == [];
    }
  }

  lemma {:induction false} ExpandPrefixMains(m: seq<VState>, k: nat)
    requires k <= |m| && AllMain(m)
    ensures Mains(ExpandPrefix(m, k)) == m[..k]
  {
    if k > 0 {
      ExpandPrefixMains(m, k - 1);
      ExpandPrefixMainsStep(m, k);
    }
  }

  lemma ExpandPrefixMainsStep(m: seq<VState>, k: nat)
    requires 0 < k <= |m| && AllMain(m) && Mains(ExpandPrefix(m, k - 1)) == m[..k - 1]
    ensures Mains(ExpandPrefix(m, k)) == m[..k]
  {
    var e, b := ExpandPrefix(m, k - 1), Block(m, k - 1);
    assert ExpandPrefix(m, k) == e + b;
    MainsAppend(e, b);
    BlockMains(m, k - 1);
    PrefixSnoc(m, k);
  }

  /** A rebuild keeps exactly the mains, in order. */
  lemma {:induction false} RebuildMains(s: seq<VState>)
    ensures Mains(Rebuild(s)) == Mains(s)
  {
    var m := Mains(s);
    ExpandPrefixMains(m, |m|);
    assert m[..|m|] == m;
  }

  /** After a rebuild there is one vertex per main plus one per non-curved main. */
  lemma {:induction false} RebuildLength(s: seq<VState>)
    ensures |Rebuild(s)| == |Mains(s)| + CountStraight(Mains(s))
  {
    var m := Mains(s);
    ExpandPrefixLength(m, |m|);
    assert m[..|m|] == m;
  }

  /** Rebuilding twice is rebuilding once. */
  lemma {:induction false} RebuildIdempotent(s: seq<VState>)
    ensures Rebuild(Rebuild(s)) == Rebuild(s)
  {
    RebuildMains(s);
  }

  // ---------------------------------------------------------------------
  // The settled layout: alternation and the midpoint law
  // ---------------------------------------------------------------------

  /**
   * The neighbourhood of index i, `succ` being the vertex after it: a virtual
   * sits between a non-curved main and a main and is not curved itself; a main
   * is followed by a virtual exactly when it is not curved.
   */
  predicate ShapeAt(t: seq<VState>, i: nat, succ: VState)
    requires i < |t|
  {
    && (t[i].kind == Virtual ==>
          && i > 0 && t[i - 1].kind == Main && t[i - 1].curve.None?
          && succ.kind == Main && t[i].curve.None?)
    && (t[i].kind == Main ==> (succ.kind == Virtual <==> t[i].curve.None?))
  }

  /** The midpoint law at index i. */
  predicate CentredAt(t: seq<VState>, i: nat, succ: VState)
    requires i < |t|
  {
    t[i].kind == Virtual && i > 0 ==> t[i].pos == Center(t[i - 1].pos, succ.pos)
  }

  /** Alternation, read cyclically, starting with a main. */
  predicate Shaped(s: seq<VState>)
  {
    && (|s| > 0 ==> s[0].kind == Main)
    && forall i :: 0 <= i < |s| ==> ShapeAt(s, i, s[NextIndex(i, |s|)])
  }

  predicate Centred(s: seq<VState>)
  {
    forall i :: 0 <= i < |s| ==> CentredAt(s, i, s[NextIndex(i, |s|)])
  }

  /** The invariant of the editor's vertex array between events. */
  predicate Settled(s: seq<VState>)
  {
    Shaped(s) && Centred(s)
  }

  /** In a settled layout only mains carry handles. */
  lemma {:induction false} SettledCurvedIsMain(s: seq<VState>, i: nat)
    requires Settled(s) && i < |s| && s[i].curve.Some?
    ensures s[i].kind == Main
  {
    assert ShapeAt(s, i, s[NextIndex(i, |s|)]);
  }

  /** Every virtual of a settled layout lies between two mains, at their midpoint. */
  lemma {:induction false} SettledVirtual(s: seq<VState>, i: nat)
    requires Settled(s) && i < |s| && s[i].kind == Virtual
    ensures 0 < i && s[i - 1].kind == Main && s[NextIndex(i, |s|)].kind == Main
    ensures s[i].pos == Center(s[i - 1].pos, s[NextIndex(i, |s|)].pos)
  {
    assert ShapeAt(s, i, s[NextIndex(i, |s|)]);
    assert CentredAt(s, i, s[NextIndex(i, |s|)]);
  }

  function After(t: seq<VState>, i: nat, after: VState): VState
    requires i < |t|
  {
    if i + 1 < |t| then t[i + 1] else after
  }

  /** Settled read linearly: `after` stands for what follows the last vertex. */
  predicate LinearSettled(t: seq<VState>, after: VState)
  {
    forall i :: 0 <= i < |t| ==>
      ShapeAt(t, i, After(t, i, after)) && CentredAt(t, i, After(t, i, after))
  }

  lemma {:induction false} LinearSettledAppend(a: seq<VState>, b: seq<VState>, after: VState)
    requires |b| > 0 && b[0].kind == Main
    requires LinearSettled(a, b[0]) && LinearSettled(b, after)
    ensures LinearSettled(a + b, after)
  {
    var t := a + b;
    forall i | 0 <= i < |t|
      ensures ShapeAt(t, i, After(t, i, after)) && CentredAt(t, i, After(t, i, after))
    {
      if i < |a| {
        assert After(t, i, after) == After(a, i, b[0]);
        assert ShapeAt(a, i, After(a, i, b[0])) && CentredAt(a, i, After(a, i, b[0]));
        assert i > 0 ==> t[i - 1] == a[i - 1];
      } else {
        var j := i - |a|;
        assert After(t, i, after) == After(b, j, after);
        assert ShapeAt(b, j, After(b, j, after)) && CentredAt(b, j, After(b, j, after));
        assert j > 0 ==> t[i - 1] == b[j - 1];
      }
    }
  }

  lemma {:induction false} BlockSettled(m: seq<VState>, k: nat)
    requires k < |m| && AllMain(m)
    ensures |Block(m, k)| > 0 && Block(m, k)[0] == m[k]
    ensures LinearSettled(Block(m, k), m[NextIndex(k, |m|)])
  {
    var b := Block(m, k);
    var after := m[NextIndex(k, |m|)];
    forall i | 0 <= i < |b|
      ensures ShapeAt(b, i, After(b, i, after)) && CentredAt(b, i, After(b, i, after))
    {
    }
  }

  lemma {:induction false} ExpandPrefixSettled(m: seq<VState>, k: nat)
    requires 1 <= k <= |m| && AllMain(m)
    ensures |ExpandPrefix(m, k)| > 0 && ExpandPrefix(m, k)[0] == m[0]
    ensures LinearSettled(ExpandPrefix(m, k), m[NextIndex(k - 1, |m|)])
  {
    BlockSettled(m, k - 1);
    if k == 1 {
      assert ExpandPrefix(m, 1) == Block(m, 0);
    } else {
      ExpandPrefixSettled(m, k - 1);
      assert NextIndex(k - 2, |m|) == k - 1;
      LinearSettledAppend(ExpandPrefix(m, k - 1), Block(m, k - 1), m[NextIndex(k - 1, |m|)]);
    }
  }

  /** A linearly settled sequence that starts with a main and wraps to itself is settled. */
  lemma {:induction false} CloseCycle(t: seq<VState>)
    requires |t| > 0 && t[0].kind == Main && LinearSettled(t, t[0])
    ensures Settled(t)
  {
    forall i | 0 <= i < |t|
      ensures ShapeAt(t, i, t[NextIndex(i, |t|)]) && CentredAt(t, i, t[NextIndex(i, |t|)])
    {
      assert After(t, i, t[0]) == t[NextIndex(i, |t|)];
    }
  }

  /** Whatever it starts from, a rebuild yields a settled layout. */
  lemma {:induction false} RebuildSettled(s: seq<VState>)
    ensures Settled(Rebuild(s))
  {
    var m := Mains(s);
    if |m| > 0 {
      ExpandPrefixSettled(m, |m|);
      assert NextIndex(|m| - 1, |m|) == 0;
      CloseCycle(Rebuild(s));
    }
  }

  // ---------------------------------------------------------------------
  // A settled layout is exactly a rebuilt one
  // ---------------------------------------------------------------------

  /** The main subsequence of a prefix grows by the next vertex when that is a main. */
  lemma {:induction false} MainsSnoc(s: seq<VState>, j: nat)
    requires j < |s|
    ensures Mains(s[..j + 1]) == Mains(s[..j]) + (if s[j].kind == Main then [s[j]] else [])
  {
    assert s[..j + 1] == s[..j] + [s[j]];
    MainsAppend(s[..j], [s[j]]);
    MainsOne(s[j]);
  }

  /** The main at index j is main number |Mains(s[..j])|. */
  lemma {:induction false} MainRank(s: seq<VState>, j: nat)
    requires j < |s| && s[j].kind == Main
    ensures |Mains(s[..j])| < |Mains(s)| && Mains(s)[|Mains(s[..j])|] == s[j]
  {
    MainsAround(s, j);
  }

  /** A non-empty settled layout starts with its first main. */
  lemma {:induction false} SettledHasMain(s: seq<VState>)
    requires Settled(s) && |s| > 0
    ensures s[0].kind == Main && Mains(s) != [] && Mains(s)[0] == s[0]
  {
    MainRank(s, 0);
    assert s[..0] == [];
  }

  /**
   * In a settled layout, the blocks of the mains before a boundary j (a main,
   * or the end) are the layout up to j.
   */
  lemma {:induction false} SettledPrefix(s: seq<VState>, j: nat)
    requires Settled(s) && j <= |s| && (j < |s| ==> s[j].kind == Main)
    ensures |Mains(s[..j])| <= |Mains(s)|
    ensures ExpandPrefix(Mains(s), |Mains(s[..j])|) == s[..j]
    decreases j
  {
    if j == 0 {
      assert s[..0] == [];
    } else {
      var succ := s[NextIndex(j - 1, |s|)];
      assert ShapeAt(s, j - 1, succ) && CentredAt(s, j - 1, succ);
      if s[j - 1].kind == Main {
        SettledPrefix(s, j - 1);
        CurvedBlock(s, j);
      } else {
        SettledPrefix(s, j - 2);
        StraightBlock(s, j);
      }
    }
  }

  /** The step of SettledPrefix over a curved main just before j: its block is itself. */
  lemma {:induction false} CurvedBlock(s: seq<VState>, j: nat)
    requires 0 < j <= |s| && s[j - 1].kind == Main && s[j - 1].curve.Some?
    requires |Mains(s[..j - 1])| <= |Mains(s)| && ExpandPrefix(Mains(s), |Mains(s[..j - 1])|) == s[..j - 1]
    ensures |Mains(s[..j])| <= |Mains(s)| && ExpandPrefix(Mains(s), |Mains(s[..j])|) == s[..j]
  {
    var m, c := Mains(s), |Mains(s[..j - 1])|;
    MainsSnoc(s, j - 1);
    MainRank(s, j - 1);
    assert Block(m, c) == [s[j - 1]];
    PrefixSnoc(s, j);
  }

  /**
   * The step of SettledPrefix over a virtual just before j, after a straight
   * main: their block is that main and the virtual midway to the next main.
   */
  lemma {:induction false} StraightBlock(s: seq<VState>, j: nat)
    requires 1 < j <= |s| && s[0].kind == Main && (j < |s| ==> s[j].kind == Main)
    requires s[j - 2].kind == Main && s[j - 2].curve.None?
    requires s[j - 1] == VState(Virtual, Center(s[j - 2].pos, s[NextIndex(j - 1, |s|)].pos), None)
    requires |Mains(s[..j - 2])| <= |Mains(s)| && ExpandPrefix(Mains(s), |Mains(s[..j - 2])|) == s[..j - 2]
    ensures |Mains(s[..j])| <= |Mains(s)| && ExpandPrefix(Mains(s), |Mains(s[..j])|) == s[..j]
  {
    var c := |Mains(s[..j - 2])|;
    MainThenVirtual(s, j);
    MainAfterVirtual(s, j, c);
    ExpandStraight(Mains(s), c, s[..j - 2], s[j - 1]);
    PrefixSnoc2(s, j);
  }

  /** A main at j - 2 and a virtual at j - 1 add one main to the prefix. */
  lemma {:induction false} MainThenVirtual(s: seq<VState>, j: nat)
    requires 1 < j <= |s| && s[j - 2].kind == Main && s[j - 1].kind == Virtual
    ensures |Mains(s[..j - 2])| < |Mains(s)| && Mains(s)[|Mains(s[..j - 2])|] == s[j - 2]
    ensures |Mains(s[..j])| == |Mains(s[..j - 2])| + 1
  {
    MainsSnoc(s, j - 2);
    MainsSnoc(s, j - 1);
    MainRank(s, j - 2);
  }

  /** The block of a straight main c: the main and the virtual after it. */
  lemma {:induction false} ExpandStraight(m: seq<VState>, c: nat, pre: seq<VState>, v: VState)
    requires c < |m| && ExpandPrefix(m, c) == pre && m[c].curve.None? && VirtualAfter(m, c) == v
    ensures ExpandPrefix(m, c + 1) == pre + [m[c], v]
  {
  }

  /** The main after the virtual at j - 1 is main number c + 1 of s, cyclically. */
  lemma {:induction false} MainAfterVirtual(s: seq<VState>, j: nat, c: nat)
    requires 1 < j <= |s| && s[0].kind == Main && (j < |s| ==> s[j].kind == Main)
    requires c < |Mains(s)| && |Mains(s[..j])| == c + 1
    ensures Mains(s)[NextIndex(c, |Mains(s)|)] == s[NextIndex(j - 1, |s|)]
  {
    if j < |s| {
      MainRank(s, j);
    } else {
      assert s[..j] == s;
      MainRank(s, 0);
      assert s[..0] == [];
    }
  }

  /** A prefix is the prefix two shorter and its last two elements. */
  lemma PrefixSnoc2<T>(s: seq<T>, j: nat)
    requires 1 < j <= |s|
    ensures s[..j] == s[..j - 2] + [s[j - 2], s[j - 1]]
  {
  }

  /** A settled layout is its own rebuild: with RebuildSettled, settled means rebuilt. */
  lemma {:induction false} SettledRebuilt(s: seq<VState>)
    requires Settled(s)
    ensures Rebuild(s) == s
  {
    SettledPrefix(s, |s|);
    assert s[..|s|] == s;
  }

  // ---------------------------------------------------------------------
  // Refreshing the virtual positions in place (`setVirtualVertexPos`)
  // ---------------------------------------------------------------------

  /** One iteration of the forEach at index k, applied to the current positions. */
  function RefreshStep(t: seq<VState>, k: nat): (r: seq<VState>)
    requires k < |t| && (t[k].kind == Virtual ==> k > 0)
    ensures |r| == |t|
    ensures forall j :: 0 <= j < |t| ==> r[j].kind == t[j].kind && r[j].curve == t[j].curve
    ensures forall j :: 0 <= j < |t| && j != k ==> r[j] == t[j]
  {
    if t[k].kind == Virtual then
      t[k := t[k].(pos := Center(t[k - 1].pos, t[NextIndex(k, |t|)].pos))]
    else t
  }

  /** The array after the first k iterations; index 0 must not be virtual (`index - 1` would be -1). */
  function RefreshUpTo(s: seq<VState>, k: nat): (r: seq<VState>)
    requires k <= |s| && (|s| > 0 ==> s[0].kind != Virtual)
    ensures |r| == |s|
    ensures forall j :: 0 <= j < |s| ==> r[j].kind == s[j].kind && r[j].curve == s[j].curve
    ensures forall j :: 0 <= j < |s| && (k <= j || s[j].kind == Main) ==> r[j] == s[j]
    decreases k
  {
    if k == 0 then s else RefreshStep(RefreshUpTo(s, k - 1), k - 1)
  }

  function RefreshAll(s: seq<VState>): seq<VState>
    requires |s| > 0 ==> s[0].kind != Virtual
  {
    RefreshUpTo(s, |s|)
  }

  /** Every virtual moved to the midpoint of its neighbours, all read before any move. */
  function Recentred(s: seq<VState>): (r: seq<VState>)
    ensures |r| == |s|
  {
    seq(|s|, i requires 0 <= i < |s| =>
      if s[i].kind == Virtual && i > 0 then s[i].(pos := Center(s[i - 1].pos, s[NextIndex(i, |s|)].pos))
      else s[i])
  }

  lemma {:induction false} RefreshUpToRecentred(s: seq<VState>, k: nat)
    requires k <= |s| && Shaped(s)
    ensures forall j :: 0 <= j < |s| ==> RefreshUpTo(s, k)[j] == if j < k then Recentred(s)[j] else s[j]
  {
    if k > 0 {
      RefreshUpToRecentred(s, k - 1);
      var i := k - 1;
      assert ShapeAt(s, i, s[NextIndex(i, |s|)]);
    }
  }

  /** Two layouts with the same types and curve flags at every index. */
  predicate SameShape(s: seq<VState>, t: seq<VState>)
  {
    |s| == |t| && forall i :: 0 <= i < |s| ==> s[i].kind == t[i].kind && s[i].curve.Some? == t[i].curve.Some?
  }

  lemma {:induction false} ShapedTransfer(s: seq<VState>, t: seq<VState>)
    requires Shaped(s) && SameShape(s, t)
    ensures Shaped(t)
  {
    forall i | 0 <= i < |t|
      ensures ShapeAt(t, i, t[NextIndex(i, |t|)])
    {
      assert ShapeAt(s, i, s[NextIndex(i, |s|)]);
    }
  }

  /**
   * On an alternating layout the in-place refresh moves every virtual to the
   * midpoint of its neighbours and leaves the layout settled: mains are never
   * moved, so no virtual sees a neighbour that was updated before it.
   */
  lemma {:induction false} RefreshSettles(s: seq<VState>)
    requires Shaped(s)
    ensures RefreshAll(s) == Recentred(s)
    ensures Settled(RefreshAll(s))
  {
    RefreshUpToRecentred(s, |s|);
    var r := Recentred(s);
    assert SameShape(s, r);
    ShapedTransfer(s, r);
    forall i | 0 <= i < |r|
      ensures CentredAt(r, i, r[NextIndex(i, |r|)])
    {
      if r[i].kind == Virtual && i > 0 {
        assert ShapeAt(s, i, s[NextIndex(i, |s|)]);
      }
    }
  }

  /** Refreshing a settled layout changes nothing. */
  lemma {:induction false} RefreshSettledIsIdentity(s: seq<VState>)
    requires Settled(s)
    ensures RefreshAll(s) == s
  {
    RefreshSettles(s);
    forall i | 0 <= i < |s|
      ensures Recentred(s)[i] == s[i]
    {
      assert CentredAt(s, i, s[NextIndex(i, |s|)]);
    }
  }

  // ---------------------------------------------------------------------
  // The initial layout (`getInitVertexArray`)
  // ---------------------------------------------------------------------

  /** What one iteration over default position k pushes. */
  function InitPair(d: seq<Point>, k: nat): seq<VState>
    requires k < |d|
  {
    [VState(Main, d[k], None), VState(Virtual, Center(d[k], d[(k + 1) % |d|]), None)]
  }

  function InitPrefix(d: seq<Point>, k: nat): seq<VState>
    requires k <= |d|
  {
    if k == 0 then [] else InitPrefix(d, k - 1) + InitPair(d, k - 1)
  }

  function InitLayout(d: seq<Point>): seq<VState>
  {
    InitPrefix(d, |d|)
  }

  /** The default positions as non-curved mains. */
  function AsMains(d: seq<Point>): (m: seq<VState>)
    ensures |m| == |d| && AllMain(m)
  {
    seq(|d|, k requires 0 <= k < |d| => VState(Main, d[k], None))
  }

  lemma {:induction false} InitPrefixAt(d: seq<Point>, k: nat)
    requires k <= |d|
    ensures |InitPrefix(d, k)| == 2 * k
    ensures forall i :: 0 <= i < 2 * k ==>
      InitPrefix(d, k)[i] ==
        if i % 2 == 0 then VState(Main, d[i / 2], None)
        else VState(Virtual, Center(d[i / 2], d[(i / 2 + 1) % |d|]), None)
  {
    if k > 0 {
      InitPrefixAt(d, k - 1);
    }
  }

  /**
   * The initial layout over n defaults has 2n vertices alternating main,
   * virtual: main j holds default j and virtual j the midpoint of defaults j
   * and (j + 1) mod n.
   */
  lemma {:induction false} InitLayoutAt(d: seq<Point>)
    ensures |InitLayout(d)| == 2 * |d|
    ensures forall j :: 0 <= j < |d| ==>
      && InitLayout(d)[2 * j] == VState(Main, d[j], None)
      && InitLayout(d)[2 * j + 1] == VState(Virtual, Center(d[j], d[(j + 1) % |d|]), None)
    ensures forall i :: 0 <= i < |InitLayout(d)| ==> InitLayout(d)[i].curve == None
  {
    InitPrefixAt(d, |d|);
    forall j | 0 <= j < |d|
      ensures InitLayout(d)[2 * j] == VState(Main, d[j], None)
      ensures InitLayout(d)[2 * j + 1] == VState(Virtual, Center(d[j], d[(j + 1) % |d|]), None)
    {
      assert (2 * j) / 2 == j && (2 * j) % 2 == 0;
      assert (2 * j + 1) / 2 == j && (2 * j + 1) % 2 == 1;
    }
  }

  lemma {:induction false} InitPrefixIsExpand(d: seq<Point>, k: nat)
    requires k <= |d|
    ensures InitPrefix(d, k) == ExpandPrefix(AsMains(d), k)
  {
    if k > 0 {
      InitPrefixIsExpand(d, k - 1);
      assert Block(AsMains(d), k - 1) == InitPair(d, k - 1);
    }
  }

  /**
   * The initial layout is already what a rebuild produces: rebuilding it
   * changes nothing. It has two vertices per default and none is curved.
   */
  lemma {:induction false} InitLayoutRebuilt(d: seq<Point>)
    ensures Mains(InitLayout(d)) == AsMains(d)
    ensures Rebuild(InitLayout(d)) == InitLayout(d)
    ensures Settled(InitLayout(d))
    ensures |InitLayout(d)| == 2 * |d|
    ensures forall i :: 0 <= i < |InitLayout(d)| ==> InitLayout(d)[i].curve == None
  {
    InitLayoutAt(d);
    var m := AsMains(d);
    InitPrefixIsExpand(d, |d|);
    ExpandPrefixMains(m, |d|);
    assert m[..|d|] == m;
    RebuildSettled(InitLayout(d));
  }

  // ---------------------------------------------------------------------
  // Edits made by the mouse event handlers
  // ---------------------------------------------------------------------

  /** `changeToMain` on the vertex at index i. */
  function Promoted(s: seq<VState>, i: nat): seq<VState>
    requires i < |s|
  {
    s[i := s[i].(kind := Main)]
  }

  /** Promoting a virtual adds exactly one main, in its place in the order. */
  lemma {:induction false} PromotedMains(s: seq<VState>, i: nat)
    requires i < |s| && s[i].kind == Virtual
    ensures Mains(Promoted(s, i)) == Mains(s[..i]) + [s[i].(kind := Main)] + Mains(s[i + 1..])
    ensures Mains(s) == Mains(s[..i]) + Mains(s[i + 1..])
    ensures |Mains(Promoted(s, i))| == |Mains(s)| + 1
  {
    var p := Promoted(s, i);
    MainsAround(s, i);
    MainsAround(p, i);
    assert p[..i] == s[..i] && p[i + 1..] == s[i + 1..];
  }

  /** The main subsequence splits around any index. */
  lemma {:induction false} MainsAround(s: seq<VState>, i: nat)
    requires i < |s|
    ensures Mains(s) == Mains(s[..i]) + (if s[i].kind == Main then [s[i]] else []) + Mains(s[i + 1..])
  {
    var a, c, b := s[..i], [s[i]], s[i + 1..];
    assert s == (a + c) + b;
    MainsAppend(a + c, b);
    MainsAppend(a, c);
    MainsOne(s[i]);
  }

  lemma {:induction false} MainsOne(x: VState)
    ensures Mains([x]) == if x.kind == Main then [x] else []
  {
    assert [x][1..] == [];
  }

  /** Promoting a virtual and rebuilding gives a settled layout with one main more. */
  lemma {:induction false} PromoteRebuilt(s: seq<VState>, i: nat)
    requires i < |s| && s[i].kind == Virtual
    ensures Settled(Rebuild(Promoted(s, i))) && |Rebuild(Promoted(s, i))| > 0
    ensures |Mains(Rebuild(Promoted(s, i)))| == |Mains(s)| + 1
  {
    PromotedMains(s, i);
    RebuildMains(Promoted(s, i));
    RebuildSettled(Promoted(s, i));
  }

  /** Moving the main at index i to p. */
  function Moved(s: seq<VState>, i: nat, p: Point): seq<VState>
    requires i < |s|
  {
    s[i := s[i].(pos := p)]
  }

  /**
   * Dragging a main and then refreshing keeps the layout settled: the
   * dragged main is at p, every other main where it was.
   */
  lemma {:induction false} DragSettles(s: seq<VState>, i: nat, p: Point)
    requires Settled(s) && i < |s| && s[i].kind == Main
    ensures Shaped(Moved(s, i, p))
    ensures Settled(RefreshAll(Moved(s, i, p)))
    ensures RefreshAll(Moved(s, i, p))[i].pos == p
    ensures forall j :: 0 <= j < |s| && j != i && s[j].kind == Main ==> RefreshAll(Moved(s, i, p))[j] == s[j]
  {
    var t := Moved(s, i, p);
    assert SameShape(s, t);
    ShapedTransfer(s, t);
    RefreshSettles(t);
  }

  /** Overwriting the handles of a curved main keeps the layout settled, positions untouched. */
  lemma {:induction false} RehandleSettled(s: seq<VState>, i: nat, h: Handles)
    requires Settled(s) && i < |s| && s[i].curve.Some?
    ensures Settled(s[i := s[i].(curve := Some(h))])
  {
    var t := s[i := s[i].(curve := Some(h))];
    assert SameShape(s, t);
    ShapedTransfer(s, t);
    forall j | 0 <= j < |t|
      ensures CentredAt(t, j, t[NextIndex(j, |t|)])
    {
      assert CentredAt(s, j, s[NextIndex(j, |s|)]);
    }
  }

  /** `changeToCurve` / `changeFromCurve` on the vertex at index i. */
  function Toggled(s: seq<VState>, i: nat, h: Handles): (r: seq<VState>)
    requires i < |s|
    ensures |r| == |s| && r[i].curve.Some? == s[i].curve.None?
    ensures s[i].curve.None? ==> r[i].curve == Some(h)
    ensures r[i].kind == s[i].kind && r[i].pos == s[i].pos
    ensures forall j :: 0 <= j < |s| && j != i ==> r[j] == s[j]
  {
    s[i := s[i].(curve := if s[i].curve.Some? then None else Some(h))]
  }

  /** Toggling a main changes its own entry of the main subsequence and no other. */
  lemma {:induction false} MainsToggled(s: seq<VState>, i: nat, h: Handles)
    requires i < |s| && s[i].kind == Main
    ensures |Mains(s[..i])| < |Mains(s)| && Mains(s)[|Mains(s[..i])|] == s[i]
    ensures Mains(Toggled(s, i, h)) == Mains(s)[|Mains(s[..i])| := Toggled(s, i, h)[i]]
  {
    var t := Toggled(s, i, h);
    MainsAround(s, i);
    MainsAround(t, i);
    assert t[..i] == s[..i] && t[i + 1..] == s[i + 1..];
  }

  /**
   * Double-clicking the same edge twice restores the layout: a straight main
   * made curved and straight again, or a curved main made straight and curved
   * again with its old handles, each toggle followed by a rebuild. Index j is
   * the same main in the rebuilt layout: the one with as many mains before it.
   */
  lemma {:induction false} ToggleRoundTrip(s: seq<VState>, i: nat, h: Handles, j: nat, h': Handles)
    requires Settled(s) && i < |s| && s[i].kind == Main
    requires s[i].curve.Some? ==> h' == s[i].curve.value
    requires j < |Rebuild(Toggled(s, i, h))| && Rebuild(Toggled(s, i, h))[j].kind == Main
    requires |Mains(Rebuild(Toggled(s, i, h))[..j])| == |Mains(s[..i])|
    ensures Rebuild(Toggled(Rebuild(Toggled(s, i, h)), j, h')) == s
  {
    var t1 := Toggled(s, i, h);
    var t := Rebuild(t1);
    var u := Toggled(t, j, h');
    MainsToggled(s, i, h);
    RebuildMains(t1);
    MainsToggled(t, j, h');
    assert t[j] == t1[i];
    assert u[j] == s[i];
    assert Mains(u) == Mains(s);
    SettledRebuilt(s);
  }

  /** Toggling a main and rebuilding gives a settled, non-empty layout with the same number of mains. */
  lemma {:induction false} ToggleRebuilt(s: seq<VState>, i: nat, h: Handles)
    requires i < |s| && s[i].kind == Main
    ensures Settled(Rebuild(Toggled(s, i, h))) && |Rebuild(Toggled(s, i, h))| > 0
    ensures |Mains(Rebuild(Toggled(s, i, h)))| == |Mains(s)|
  {
    MainsToggled(s, i, h);
    RebuildMains(Toggled(s, i, h));
    RebuildSettled(Toggled(s, i, h));
  }
}
