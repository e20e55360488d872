/**
 * What the editor derives from its vertex array: the 2D profile handed to the
 * extrusion (`setExtrudeMesh`) and the centre line of each edge tube
 * (`setEdgeGroup`), src/component/CubeEditor.ts. The three.js geometry built
 * from them is not modelled.
 */
module Derivation {
  import opened Wrappers
  import opened Geometry
  import opened Layout

  /** A point of the profile: the (x, z) projection of a vertex position; y is ignored. */
  datatype Flat = Flat(x: real, z: real)

  function Project(p: Point): Flat
  {
    Flat(p.x, p.z)
  }

  /** The THREE.Shape path commands the editor issues. */
  datatype PathCmd =
    | MoveTo(to: Flat)
    | LineTo(to: Flat)
    | BezierCurveTo(control1: Flat, control2: Flat, to: Flat)

  /** The commands issued for main k: a line to it, or a jump to it and a Bézier to the next main. */
  function StepAt(m: seq<VState>, k: nat): seq<PathCmd>
    requires k < |m|
  {
    match m[k].curve
    case Some(h) =>
      [MoveTo(Project(m[k].pos)),
       BezierCurveTo(Project(h.first), Project(h.second), Project(m[NextIndex(k, |m|)].pos))]
    case None => [LineTo(Project(m[k].pos))]
  }

  function StepsPrefix(m: seq<VState>, k: nat): seq<PathCmd>
    requires k <= |m|
  {
    if k == 0 then [] else StepsPrefix(m, k - 1) + StepAt(m, k - 1)
  }

  /**
   * The profile of `setExtrudeMesh`: start at the last main, then one step per
   * main in order. With no main, `mainArray[length - 1]` is undefined and the
   * source throws, hence the precondition.
   */
  function Outline(s: seq<VState>): seq<PathCmd>
    requires Mains(s) != []
  {
    var m := Mains(s);
    [MoveTo(Project(m[|m| - 1].pos))] + StepsPrefix(m, |m|)
  }

  /** `{ depth: this._deepth, bevelEnabled: false }` */
  datatype ExtrudeSettings = ExtrudeSettings(depth: real, bevelEnabled: bool)

  /** What `setExtrudeMesh` hands to THREE.ExtrudeGeometry. */
  datatype Extrusion = Extrusion(shape: seq<PathCmd>, settings: ExtrudeSettings)

  lemma {:induction false} StepsPrefixLength(m: seq<VState>, k: nat)
    requires k <= |m|
    ensures |StepsPrefix(m, k)| == k + (k - CountStraight(m[..k]))
  {
    if k > 0 {
      StepsPrefixLength(m, k - 1);
      assert m[..k][..k - 1] == m[..k - 1];
    }
  }

  /** The profile has one command to start, one per main and one more per curved main. */
  lemma {:induction false} OutlineLength(s: seq<VState>)
    requires Mains(s) != []
    ensures |Outline(s)| == 1 + |Mains(s)| + (|Mains(s)| - CountStraight(Mains(s)))
  {
    var m := Mains(s);
    StepsPrefixLength(m, |m|);
    assert m[..|m|] == m;
  }

  lemma {:induction false} StepsPrefixGrows(m: seq<VState>, j: nat, k: nat)
    requires j <= k <= |m|
    ensures |StepsPrefix(m, j)| <= |StepsPrefix(m, k)|
    ensures StepsPrefix(m, k)[..|StepsPrefix(m, j)|] == StepsPrefix(m, j)
  {
    if j < k {
      StepsPrefixGrows(m, j, k - 1);
      var p := StepsPrefix(m, k - 1);
      assert StepsPrefix(m, k)[..|p|] == p;
    }
  }

  /** A block found at the front of a prefix is found at the same place in the whole. */
  lemma {:induction false} SliceOfPrefix<T>(p: seq<T>, x: seq<T>, b: seq<T>)
    requires |x + b| <= |p| && p[..|x + b|] == x + b
    ensures p[|x| .. |x| + |b|] == b
  {
    assert p[|x| .. |x| + |b|] == (x + b)[|x|..];
  }

  lemma {:induction false} StepInPrefix(m: seq<VState>, k: nat, n: nat)
    requires k < n <= |m|
    ensures |StepsPrefix(m, k)| + |StepAt(m, k)| <= |StepsPrefix(m, n)|
    ensures StepsPrefix(m, n)[|StepsPrefix(m, k)| .. |StepsPrefix(m, k)| + |StepAt(m, k)|] == StepAt(m, k)
  {
    StepsPrefixGrows(m, k + 1, n);
    var p, x, b := StepsPrefix(m, n), StepsPrefix(m, k), StepAt(m, k);
    assert StepsPrefix(m, k + 1) == x + b;
    SliceOfPrefix(p, x, b);
  }

  /**
   * The commands for main k appear in the profile in the order of the mains:
   * right after the start and the commands of mains 0 .. k - 1.
   */
  lemma {:induction false} OutlineStep(s: seq<VState>, k: nat)
    requires Mains(s) != [] && k < |Mains(s)|
    ensures 1 + |StepsPrefix(Mains(s), k)| + |StepAt(Mains(s), k)| <= |Outline(s)|
    ensures Outline(s)[1 + |StepsPrefix(Mains(s), k)| .. 1 + |StepsPrefix(Mains(s), k)| + |StepAt(Mains(s), k)|]
         == StepAt(Mains(s), k)
  {
    var m := Mains(s);
    StepInPrefix(m, k, |m|);
    SliceShift([MoveTo(Project(m[|m| - 1].pos))], StepsPrefix(m, |m|), |StepsPrefix(m, k)|, |StepAt(m, k)|);
  }

  lemma {:induction false} SliceShift<T>(c: seq<T>, p: seq<T>, a: nat, len: nat)
    requires a + len <= |p|
    ensures (c + p)[|c| + a .. |c| + a + len] == p[a .. a + len]
  {
  }

  /**
   * Without curved mains the profile is the closed polygon through the mains:
   * a move to the last main, then a line to each main in order.
   */
  lemma {:induction false} OutlinePolygon(s: seq<VState>)
    requires Mains(s) != []
    requires forall k :: 0 <= k < |Mains(s)| ==> Mains(s)[k].curve.None?
    ensures |Outline(s)| == 1 + |Mains(s)|
    ensures Outline(s)[0] == MoveTo(Project(Mains(s)[|Mains(s)| - 1].pos))
    ensures forall k :: 0 <= k < |Mains(s)| ==> Outline(s)[k + 1] == LineTo(Project(Mains(s)[k].pos))
  {
    var m := Mains(s);
    StraightStepsLength(m, |m|);
    forall k | 0 <= k < |m|
      ensures Outline(s)[k + 1] == LineTo(Project(m[k].pos))
    {
      OutlineStraightAt(s, k);
    }
  }

  /** Without curved mains, the command after the start for main k is a line to it. */
  lemma {:induction false} OutlineStraightAt(s: seq<VState>, k: nat)
    requires Mains(s) != [] && k < |Mains(s)|
    requires forall j :: 0 <= j < |Mains(s)| ==> Mains(s)[j].curve.None?
    ensures k + 1 < |Outline(s)| && Outline(s)[k + 1] == LineTo(Project(Mains(s)[k].pos))
  {
    var m := Mains(s);
    StraightStepsLength(m, k);
    OutlineStep(s, k);
    assert StepAt(m, k) == [LineTo(Project(m[k].pos))];
    var slice := Outline(s)[1 + k .. 1 + k + 1];
    assert slice == StepAt(m, k);
    assert Outline(s)[k + 1] == slice[0];
  }

  lemma {:induction false} StraightStepsLength(m: seq<VState>, k: nat)
    requires k <= |m|
    requires forall j :: 0 <= j < |m| ==> m[j].curve.None?
    ensures |StepsPrefix(m, k)| == k
  {
    if k > 0 {
      StraightStepsLength(m, k - 1);
    }
  }

  /** Virtual vertices play no part in the profile: a rebuild leaves it unchanged. */
  lemma {:induction false} OutlineIgnoresVirtuals(s: seq<VState>)
    requires Mains(s) != []
    ensures Mains(Rebuild(s)) != [] && Outline(Rebuild(s)) == Outline(s)
  {
    RebuildMains(s);
  }

  // ---------------------------------------------------------------------
  // Edge centre lines (`setEdgeGroup`)
  // ---------------------------------------------------------------------

  /** The centre line of an edge tube: a segment, or a cubic Bézier through the owner's handles. */
  datatype Path =
    | Straight(from: Point, to: Point)
    | Bezier(from: Point, control1: Point, control2: Point, to: Point)

  /** The edge leaving main k toward the next main. */
  function EdgePath(m: seq<VState>, k: nat): Path
    requires k < |m|
  {
    match m[k].curve
    case Some(h) => Bezier(m[k].pos, h.first, h.second, m[NextIndex(k, |m|)].pos)
    case None => Straight(m[k].pos, m[NextIndex(k, |m|)].pos)
  }

  function EdgePaths(s: seq<VState>): (r: seq<Path>)
    ensures |r| == |Mains(s)|
  {
    var m := Mains(s);
    seq(|m|, k requires 0 <= k < |m| => EdgePath(m, k))
  }

  /** The edges form a closed chain: each ends where the next one starts. */
  lemma {:induction false} EdgesChain(s: seq<VState>, k: nat)
    requires k < |EdgePaths(s)|
    ensures EdgePaths(s)[k].to == EdgePaths(s)[NextIndex(k, |EdgePaths(s)|)].from
    ensures EdgePaths(s)[k].from == Mains(s)[k].pos
    ensures EdgePaths(s)[k].Bezier? <==> Mains(s)[k].curve.Some?
  {
  }

  /** Virtual vertices play no part in the edges either. */
  lemma {:induction false} EdgesIgnoreVirtuals(s: seq<VState>)
    ensures EdgePaths(Rebuild(s)) == EdgePaths(s)
  {
    RebuildMains(s);
  }
}
