/**
 * The cube editor (src/component/CubeEditor.ts): the vertex array as objects,
 * the in-place and rebuilding updates, the lookups, and the mouse event handlers
 * as a state machine over the selection, the hover and the orbit flag.
 * Raycast results, the plane intersection point and the curve-handle seeds
 * are parameters of the handlers.
 */
module Editor {
  import opened Wrappers
  import opened Geometry
  import opened Layout
  import opened Derivation
  import opened VertexModel

  /**
   * An object a raycast returns: a vertex marker (group "main"), a curve-handle
   * marker (group "curve", named by its owner's uuid) or an edge tube (named
   * by its owner's uuid).
   */
  datatype Pick =
    | VertexMarker(mesh: Mesh)
    | CurveMarker(owner: Mesh, slot: HandleSlot)
    | EdgeTube(owner: Mesh)

  /** A hit on a curve-handle marker. */
  datatype HandleHit = HandleHit(owner: Mesh, slot: HandleSlot)

  /** One tube of the edge group: its name, its colour (red when curved) and its centre line. */
  datatype Edge = Edge(name: Mesh, curved: bool, path: Path)

  /** The mesh whose uuid a pick resolves to. */
  function Owner(p: Pick): Mesh
  {
    match p
    case VertexMarker(m) => m
    case CurveMarker(m, _) => m
    case EdgeTube(m) => m
  }

  /** The values of a sequence of vectors (`defaultVertextPositions`). */
  function Points(ps: seq<Vec3>): seq<Point>
    reads set v | v in ps
  {
    seq(|ps|, k requires 0 <= k < |ps| reads set v | v in ps => ps[k].Value())
  }

  /** The state of every vertex of a vertex array. */
  function Values(vs: seq<Vertex>): (r: seq<VState>)
    reads set v | v in vs, set v | v in vs :: v.position
  {
    seq(|vs|, i requires 0 <= i < |vs| reads set v | v in vs, set v | v in vs :: v.position => vs[i].State())
  }

  /** `filter(vertex => vertex._type === "main")`, on the objects themselves. */
  function MainVertices(vs: seq<Vertex>): (m: seq<Vertex>)
    reads vs
    ensures |m| <= |vs|
  {
    if vs == [] then []
    else (if vs[0].vtype == Main then [vs[0]] else []) + MainVertices(vs[1..])
  }

  predicate NoDup<T(==)>(s: seq<T>)
  {
    forall i, j :: 0 <= i < j < |s| ==> s[i] != s[j]
  }

  /** Distinct vertices share no object: not their vector, not their marker's. */
  ghost predicate Disjoint(vs: seq<Vertex>)
  {
    forall a, b :: a in vs && b in vs && a != b ==> Apart(a, b)
  }

  /** `findIndex(x => x === v)`: the first index holding v, or -1. */
  function FindIndex<T(==)>(s: seq<T>, x: T): (i: int)
    ensures -1 <= i < |s|
    ensures i == -1 <==> x !in s
    ensures 0 <= i ==> s[i] == x && x !in s[..i]
  {
    if s == [] then -1
    else if s[0] == x then 0
    else
      var r := FindIndex(s[1..], x);
      assert s[1..][..if r < 0 then 0 else r] == s[1..if r < 0 then 1 else r + 1];
      if r == -1 then -1 else r + 1
  }

  /** In a sequence without duplicates, the element at k is found at k. */
  lemma {:induction false} FindIndexNoDup<T>(s: seq<T>, k: nat)
    requires NoDup(s) && k < |s|
    ensures FindIndex(s, s[k]) == k
  {
    var index := FindIndex(s, s[k]);
    assert s[index] == s[k];
  }

  /** The body of `getNextMainVertex` on the main subsequence mainArray. */
  function NextMain(mainArray: seq<Vertex>, vertexMain: Vertex): (r: Option<Vertex>)
    ensures r.None? <==> mainArray == []
    ensures r.Some? ==> r.value in mainArray
    ensures vertexMain !in mainArray && mainArray != [] ==> r == Some(mainArray[0])
  {
    var index := FindIndex(mainArray, vertexMain);
    var next := if index == |mainArray| - 1 then 0 else index + 1;
    if 0 <= next < |mainArray| then Some(mainArray[next]) else None
  }

  /** With no repeats, the successor of entry k is entry k + 1, cyclically. */
  lemma {:induction false} NextMainOf(mainArray: seq<Vertex>, k: nat)
    requires NoDup(mainArray) && k < |mainArray|
    ensures NextMain(mainArray, mainArray[k]) == Some(mainArray[NextIndex(k, |mainArray|)])
  {
    FindIndexNoDup(mainArray, k);
  }

  /** `find(vertex => vertex._mesh.uuid === id)` */
  function FindByMesh(vs: seq<Vertex>, id: Mesh): (r: Option<Vertex>)
    ensures r.Some? ==> r.value in vs && r.value.mesh == id
    ensures r.None? ==> forall v :: v in vs ==> v.mesh != id
  {
    if vs == [] then None
    else if vs[0].mesh == id then Some(vs[0])
    else FindByMesh(vs[1..], id)
  }

  /** The tube `setEdgeGroup` builds for main k: from k to the next main, through k's handles when curved. */
  function Tube(m: seq<Vertex>, k: nat): Edge
    requires k < |m|
    reads m[k], m[k].position, m[NextIndex(k, |m|)].position
  {
    var to := m[NextIndex(k, |m|)].position.Value();
    Edge(m[k].mesh, m[k].isCurve,
      match m[k].curvePoints
      case Some(h) => Bezier(m[k].position.Value(), h.first, h.second, to)
      case None => Straight(m[k].position.Value(), to))
  }

  /** The tubes of the first k mains. */
  function Tubes(m: seq<Vertex>, k: nat): (r: seq<Edge>)
    requires k <= |m|
    reads set v | v in m, set v | v in m :: v.position
    ensures |r| == k
  {
    if k == 0 then [] else Tubes(m, k - 1) + [Tube(m, k - 1)]
  }

  lemma {:induction false} ValuesOfMains(vs: seq<Vertex>)
    ensures Values(MainVertices(vs)) == Mains(Values(vs))
  {
    if vs != [] {
      ValuesOfMains(vs[1..]);
      var head := if vs[0].vtype == Main then [vs[0]] else [];
      assert Values(vs)[1..] == Values(vs[1..]);
      assert Values(head + MainVertices(vs[1..])) == Values(head) + Values(MainVertices(vs[1..]));
    }
  }

  lemma {:induction false} ValuesAppend(a: seq<Vertex>, b: seq<Vertex>)
    ensures Values(a + b) == Values(a) + Values(b)
  {
  }

  /** Appending vertices that own none of the objects of vs keeps the array sound. */
  lemma {:induction false} DisjointAppend(vs: seq<Vertex>, extra: seq<Vertex>, objs: set<object>)
    requires NoDup(vs) && Disjoint(vs) && NoDup(extra) && Disjoint(extra)
    requires forall v :: v in vs ==> Owned(v, objs)
    requires forall v :: v in extra ==> Foreign(v, objs)
    ensures NoDup(vs + extra) && Disjoint(vs + extra)
  {
    var t := vs + extra;
    forall i, j | 0 <= i < j < |t|
      ensures t[i] != t[j]
    {
      if i < |vs| && |vs| <= j {
        assert t[i] in vs && t[j] in extra;
      }
    }
  }

  lemma {:induction false} MainVerticesAppend(a: seq<Vertex>, b: seq<Vertex>)
    ensures MainVertices(a + b) == MainVertices(a) + MainVertices(b)
  {
    if a != [] {
      assert (a + b)[1..] == a[1..] + b;
      MainVerticesAppend(a[1..], b);
    } else {
      assert a + b == b;
    }
  }

  /** The main vertices are exactly the members of type main. */
  lemma {:induction false} MainVerticesIn(vs: seq<Vertex>)
    ensures forall v :: v in MainVertices(vs) <==> v in vs && v.vtype == Main
  {
    if vs != [] {
      MainVerticesIn(vs[1..]);
      assert forall v :: v in vs <==> v == vs[0] || v in vs[1..];
    }
  }

  /** The filter looks only at the types: if no type changed, neither did the filtered array. */
  twostate lemma {:induction false} MainVerticesKept(vs: seq<Vertex>)
    requires forall v :: v in vs ==> v.vtype == old(v.vtype)
    ensures MainVertices(vs) == old(MainVertices(vs))
  {
    if vs != [] {
      MainVerticesKept(vs[1..]);
    }
  }

  /** The mains of vs are those before a main vs[i], then vs[i], then those after it. */
  lemma {:induction false} MainVerticesAround(vs: seq<Vertex>, i: nat)
    requires i < |vs| && vs[i].vtype == Main
    ensures MainVertices(vs) == MainVertices(vs[..i]) + [vs[i]] + MainVertices(vs[i + 1..])
  {
    assert vs == vs[..i] + ([vs[i]] + vs[i + 1..]);
    MainVerticesAppend(vs[..i], [vs[i]] + vs[i + 1..]);
    MainVerticesAppend([vs[i]], vs[i + 1..]);
    assert MainVertices([vs[i]]) == [vs[i]];
  }

  lemma {:induction false} MainVerticesNoDup(vs: seq<Vertex>)
    requires NoDup(vs)
    ensures NoDup(MainVertices(vs))
  {
    if vs != [] {
      MainVerticesNoDup(vs[1..]);
      MainVerticesIn(vs[1..]);
      assert vs[0] !in vs[1..];
    }
  }

  /** Main k of vs sits at some index of vs. */
  lemma {:induction false} MainVertexAt(vs: seq<Vertex>, k: nat) returns (i: nat)
    requires k < |MainVertices(vs)|
    ensures i < |vs| && vs[i] == MainVertices(vs)[k]
  {
    if vs[0].vtype == Main && k == 0 {
      i := 0;
    } else {
      var j := MainVertexAt(vs[1..], if vs[0].vtype == Main then k - 1 else k);
      i := j + 1;
    }
  }

  lemma {:induction false} TubesAt(m: seq<Vertex>, n: nat, k: nat)
    requires k < n <= |m|
    ensures Tubes(m, n)[k] == Tube(m, k)
  {
    if k < n - 1 {
      TubesAt(m, n - 1, k);
    }
  }

  /**
   * `getInitVertexArray`: per default, a main holding a fresh copy of it and a
   * virtual at the midpoint with the next default.
   */
  method GetInitVertexArray(defaults: seq<Vec3>) returns (vs: seq<Vertex>, ghost objs: set<object>)
    ensures fresh(objs) && SoundArray(vs, objs, defaults)
    ensures Values(vs) == InitLayout(Points(defaults))
  {
    vs := [];
    objs := {};
    for index := 0 to |defaults|
      invariant fresh(objs)
      invariant Initialising(defaults, vs, index, objs)
    {
      var main, virtual, block := InitStep(defaults, vs, index, objs);
      vs := vs + [main, virtual];
      objs := objs + block;
    }
  }

  /** The state of `getInitVertexArray` after the first k defaults. */
  ghost predicate Initialising(defaults: seq<Vec3>, vs: seq<Vertex>, k: nat, objs: set<object>)
    reads set v | v in defaults
    reads set v | v in vs, set v | v in vs :: v.position, set v | v in vs :: v.mesh.position
  {
    && k <= |defaults| && SoundArray(vs, objs, defaults)
    && Values(vs) == InitPrefix(Points(defaults), k)
  }

  /** An iteration of `getInitVertexArray`: the pair for default k, on new objects. */
  method InitStep(defaults: seq<Vec3>, vs: seq<Vertex>, k: nat, ghost objs: set<object>)
    returns (main: Vertex, virtual: Vertex, ghost block: set<object>)
    requires Initialising(defaults, vs, k, objs) && k < |defaults|
    ensures fresh(block)
    ensures Initialising(defaults, vs + [main, virtual], k + 1, objs + block)
  {
    main, virtual := InitPairAt(defaults, k);
    block := {main, main.position, main.mesh.position, virtual, virtual.position, virtual.mesh.position};
    assert fresh(block);
    InitPush(defaults, vs, k, objs, main, virtual, block);
  }

  /** Pushing the pair for default k onto the pairs before it. */
  lemma {:induction false} InitPush(defaults: seq<Vec3>, vs: seq<Vertex>, k: nat, objs: set<object>,
                 main: Vertex, virtual: Vertex, block: set<object>)
    requires Initialising(defaults, vs, k, objs) && k < |defaults|
    requires block == {main, main.position, main.mesh.position, virtual, virtual.position, virtual.mesh.position}
    requires Foreign(main, objs) && Foreign(virtual, objs) && Apart(main, virtual)
    requires forall j :: 0 <= j < |defaults| ==> defaults[j] !in block
    requires main.Valid() && virtual.Valid()
    requires [main.State(), virtual.State()] == InitPair(Points(defaults), k)
    ensures Initialising(defaults, vs + [main, virtual], k + 1, objs + block)
  {
    var pair := [main, virtual];
    DisjointAppend(vs, pair, objs);
    ValuesAppend(vs, pair);
    var t := vs + pair;
    forall v | v in t
      ensures Owned(v, objs + block) && v.Valid()
    {
    }
  }

  /** One iteration over the defaults: a main on a copy of default k, and the virtual after it. */
  method InitPairAt(defaults: seq<Vec3>, k: nat) returns (main: Vertex, virtual: Vertex)
    requires k < |defaults|
    ensures fresh(main.Footprint()) && fresh(virtual.Footprint())
    ensures Apart(main, virtual)
    ensures main.Valid() && virtual.Valid()
    ensures [main.State(), virtual.State()] == InitPair(Points(defaults), k)
  {
    var position := defaults[k];
    var copy := new Vec3();
    copy.Copy(position);
    main := new Vertex(copy, Main);
    var center := GetCenterVector(position, defaults[(k + 1) % |defaults|]);
    virtual := new Vertex(center, Virtual);
  }

  /** Main vertices as `resetVirtualVertexPos` receives them: distinct, sound, all of type main. */
  ghost predicate MainsOk(mainArray: seq<Vertex>)
    reads set v | v in mainArray, set v | v in mainArray :: v.position,
      set v | v in mainArray :: v.mesh.position
  {
    && NoDup(mainArray) && Disjoint(mainArray)
    && (forall v :: v in mainArray ==> v.Valid() && v.vtype == Main)
  }

  /**
   * The state of `resetVirtualVertexPos` after the first k mains: the list
   * holds their blocks, its virtuals are new objects recorded in added, and
   * the mains own nothing in added.
   */
  ghost predicate Expanding(mainArray: seq<Vertex>, vArray: seq<Vertex>, k: nat, added: set<object>)
    reads set v | v in mainArray, set v | v in mainArray :: v.position,
      set v | v in mainArray :: v.mesh.position
    reads set v | v in vArray, set v | v in vArray :: v.position, set v | v in vArray :: v.mesh.position
  {
    && MainsOk(mainArray) && k <= |mainArray|
    && (forall v :: v in mainArray ==> Foreign(v, added))
    && Values(vArray) == ExpandPrefix(Values(mainArray), k)
    && MainVertices(vArray) == mainArray[..k]
    && (forall v :: v in vArray ==> v.Valid())
    && (forall v :: v in vArray ==> v in mainArray[..k] || (v.vtype == Virtual && Owned(v, added)))
    && NoDup(vArray) && Disjoint(vArray)
  }

  /**
   * The forEach of `resetVirtualVertexPos` over the main vertices: each is
   * pushed, followed by a fresh virtual unless it is curved.
   */
  method ExpandMains(mainArray: seq<Vertex>) returns (vArray: seq<Vertex>, ghost added: set<object>)
    requires MainsOk(mainArray)
    ensures fresh(added)
    ensures Values(vArray) == ExpandPrefix(Values(mainArray), |mainArray|)
    ensures MainVertices(vArray) == mainArray && forall v :: v in mainArray ==> v in vArray
    ensures forall v :: v in vArray ==> v.Valid() && (v in mainArray || (v.vtype == Virtual && Owned(v, added)))
    ensures NoDup(vArray) && Disjoint(vArray)
  {
    vArray := [];
    added := {};
    for index := 0 to |mainArray|
      invariant fresh(added)
      invariant Expanding(mainArray, vArray, index, added)
    {
      var next, block := ExpandOne(mainArray, vArray, index, added);
      vArray := next;
      added := added + block;
    }
    Expanded(mainArray, vArray, added);
  }

  /** One iteration of that forEach, at main k. */
  method ExpandOne(mainArray: seq<Vertex>, vArray: seq<Vertex>, k: nat, ghost added: set<object>)
    returns (next: seq<Vertex>, ghost block: set<object>)
    requires Expanding(mainArray, vArray, k, added) && k < |mainArray|
    ensures fresh(block)
    ensures Expanding(mainArray, next, k + 1, added + block)
  {
    var vertex := mainArray[k];
    if vertex.isCurve {
      PushMain(mainArray, vArray, k, added);
      next, block := vArray + [vertex], {};
    } else {
      var nv;
      nv, block := PushWithVirtual(mainArray, vArray, k, added);
      next := vArray + [vertex, nv];
    }
  }

  /** After the last main, the list holds every main and one block each. */
  lemma {:induction false} Expanded(mainArray: seq<Vertex>, vArray: seq<Vertex>, added: set<object>)
    requires Expanding(mainArray, vArray, |mainArray|, added)
    ensures Values(vArray) == ExpandPrefix(Values(mainArray), |mainArray|)
    ensures MainVertices(vArray) == mainArray && forall v :: v in mainArray ==> v in vArray
    ensures forall v :: v in vArray ==> v.Valid() && (v in mainArray || (v.vtype == Virtual && Owned(v, added)))
    ensures NoDup(vArray) && Disjoint(vArray)
  {
    assert mainArray[..|mainArray|] == mainArray;
    MainVerticesIn(vArray);
  }

  /** An iteration at an uncurved main k: the main, then a new virtual after it. */
  method PushWithVirtual(mainArray: seq<Vertex>, vArray: seq<Vertex>, k: nat, ghost added: set<object>)
    returns (nv: Vertex, ghost block: set<object>)
    requires Expanding(mainArray, vArray, k, added) && k < |mainArray| && !mainArray[k].isCurve
    ensures fresh(block)
    ensures Expanding(mainArray, vArray + [mainArray[k], nv], k + 1, added + block)
  {
    nv := NewVirtualAfter(mainArray, k);
    block := {nv, nv.position, nv.mesh.position};
    assert fresh(block);
    PushBlock(mainArray, vArray, k, added, nv);
  }

  /** The virtual `resetVirtualVertexPos` pushes after main k: at the midpoint with the next main. */
  method NewVirtualAfter(mainArray: seq<Vertex>, k: nat) returns (nv: Vertex)
    requires k < |mainArray|
    ensures fresh(nv) && fresh(nv.position) && fresh(nv.mesh.position)
    ensures nv.Valid() && nv.vtype == Virtual
    ensures nv.State() == VirtualAfter(Values(mainArray), k)
  {
    var secondPosIndex := if k == |mainArray| - 1 then 0 else k + 1;
    var virtexPos := GetCenterVector(mainArray[k].position, mainArray[secondPosIndex].position);
    nv := new Vertex(virtexPos, Virtual);
  }

  /** Pushing a curved main k: its block is the main alone. */
  lemma {:induction false} PushMain(mainArray: seq<Vertex>, vArray: seq<Vertex>, k: nat, added: set<object>)
    requires Expanding(mainArray, vArray, k, added) && k < |mainArray| && mainArray[k].isCurve
    ensures Expanding(mainArray, vArray + [mainArray[k]], k + 1, added)
  {
    var x := mainArray[k];
    PushMainShape(mainArray, vArray, k, added);
    ValuesAppend(vArray, [x]);
    assert Values(vArray + [x]) == ExpandPrefix(Values(mainArray), k + 1);
  }

  /** Pushing an uncurved main k and the new virtual nv after it. */
  lemma {:induction false} PushBlock(mainArray: seq<Vertex>, vArray: seq<Vertex>, k: nat, added: set<object>, nv: Vertex)
    requires Expanding(mainArray, vArray, k, added) && k < |mainArray| && !mainArray[k].isCurve
    requires nv.Valid() && nv.vtype == Virtual && nv.State() == VirtualAfter(Values(mainArray), k)
    requires Foreign(nv, added) && forall v :: v in mainArray ==> Apart(v, nv)
    ensures Expanding(mainArray, vArray + [mainArray[k], nv], k + 1, added + {nv, nv.position, nv.mesh.position})
  {
    var x := mainArray[k];
    var added' := added + {nv, nv.position, nv.mesh.position};
    PushMainShape(mainArray, vArray, k, added);
    var w := vArray + [x];
    forall v | v in w
      ensures Apart(v, nv)
    {
      if v !in mainArray {
        assert Owned(v, added);
      }
    }
    PushVirtual(w, nv);
    assert w + [nv] == vArray + [x, nv];
    ValuesAppend(vArray, [x, nv]);
    assert Values(vArray + [x, nv]) == ExpandPrefix(Values(mainArray), k + 1);
    forall v | v in mainArray
      ensures Foreign(v, added')
    {
      assert Apart(v, nv);
    }
    forall v | v in w + [nv]
      ensures v in mainArray[..k + 1] || (v.vtype == Virtual && Owned(v, added'))
    {
    }
  }

  /** What pushing main k does to the list apart from its values. */
  lemma {:induction false} PushMainShape(mainArray: seq<Vertex>, vArray: seq<Vertex>, k: nat, added: set<object>)
    requires Expanding(mainArray, vArray, k, added) && k < |mainArray|
    ensures MainVertices(vArray + [mainArray[k]]) == mainArray[..k + 1]
    ensures NoDup(vArray + [mainArray[k]]) && Disjoint(vArray + [mainArray[k]])
    ensures forall v :: v in vArray + [mainArray[k]] ==> v.Valid()
    ensures forall v :: v in vArray + [mainArray[k]] ==>
      v in mainArray[..k + 1] || (v.vtype == Virtual && Owned(v, added))
  {
    var x := mainArray[k];
    MainVerticesAppend(vArray, [x]);
    assert MainVertices([x]) == [x];
    assert mainArray[..k + 1] == mainArray[..k] + [x];
    forall v | v in vArray
      ensures Apart(v, x)
    {
      if v in mainArray[..k] {
        var j :| 0 <= j < k && mainArray[j] == v;
      } else {
        assert Owned(v, added) && Foreign(x, added);
      }
    }
    DisjointAppendOne(vArray, x);
  }

  /** Pushing a vertex of type virtual apart from all of vArray. */
  lemma {:induction false} PushVirtual(vArray: seq<Vertex>, nv: Vertex)
    requires nv.vtype == Virtual
    requires NoDup(vArray) && Disjoint(vArray)
    requires forall v :: v in vArray ==> Apart(v, nv)
    ensures MainVertices(vArray + [nv]) == MainVertices(vArray)
    ensures NoDup(vArray + [nv]) && Disjoint(vArray + [nv])
  {
    MainVerticesAppend(vArray, [nv]);
    assert MainVertices([nv]) == [];
    DisjointAppendOne(vArray, nv);
  }

  lemma {:induction false} DisjointAppendOne(vs: seq<Vertex>, x: Vertex)
    requires NoDup(vs) && Disjoint(vs)
    requires forall v :: v in vs ==> Apart(v, x)
    ensures NoDup(vs + [x]) && Disjoint(vs + [x])
  {
    forall i | 0 <= i < |vs|
      ensures vs[i] != x
    {
      assert Apart(vs[i], x);
    }
    var t := vs + [x];
    assert forall i :: 0 <= i < |vs| ==> t[i] == vs[i];
  }

  /**
   * The heap shape of a vertex array: vertices distinct and sound, owning
   * disjoint objects recorded in repr, and no default vector among them.
   */
  ghost predicate SoundArray(vs: seq<Vertex>, repr: set<object>, defaults: seq<Vec3>)
    reads set v | v in vs, set v | v in vs :: v.position, set v | v in vs :: v.mesh.position
  {
    && (forall v :: v in vs ==> Owned(v, repr) && v.Valid())
    && NoDup(vs) && Disjoint(vs)
    && (forall k :: 0 <= k < |defaults| ==> defaults[k] !in repr)
  }

  /** A sound array stays sound when its objects are recorded in a larger set that holds no default. */
  lemma {:induction false} SoundArrayGrow(vs: seq<Vertex>, objs: set<object>, repr: set<object>, defaults: seq<Vec3>)
    requires SoundArray(vs, objs, defaults)
    requires forall k :: 0 <= k < |defaults| ==> defaults[k] !in repr
    ensures SoundArray(vs, repr + objs, defaults)
  {
  }

  /** `resetVirtualVertexPos` on a sound array: the mains in order, a new virtual after each uncurved one. */
  method RebuildArray(vs: seq<Vertex>, ghost repr: set<object>, ghost defaults: seq<Vec3>)
    returns (vArray: seq<Vertex>, ghost added: set<object>)
    requires SoundArray(vs, repr, defaults)
    ensures fresh(added) && SoundArray(vArray, repr + added, defaults)
    ensures Values(vArray) == Rebuild(old(Values(vs)))
    ensures MainVertices(vArray) == old(MainVertices(vs))
    ensures forall v :: v in vArray ==> (v in vs && v.vtype == Main) || (fresh(v) && v.vtype == Virtual)
    ensures forall v :: v in vs && v.vtype == Main ==> v in vArray
  {
    var mainArray := MainVertices(vs);
    ValuesOfMains(vs);
    MainVerticesNoDup(vs);
    MainVerticesIn(vs);
    assert MainsOk(mainArray);
    ghost var m := Values(mainArray);
    vArray, added := ExpandMains(mainArray);
    assert Values(mainArray) == m;
    RebuiltSound(mainArray, vArray, repr, added, defaults);
  }

  /** The rebuilt list is sound over the old objects and the new ones, when no default is new. */
  lemma {:induction false} RebuiltSound(mainArray: seq<Vertex>, vArray: seq<Vertex>, repr: set<object>,
    added: set<object>, defaults: seq<Vec3>)
    requires forall v :: v in mainArray ==> Owned(v, repr)
    requires forall v :: v in vArray ==> v.Valid() && (v in mainArray || (v.vtype == Virtual && Owned(v, added)))
    requires NoDup(vArray) && Disjoint(vArray)
    requires forall k :: 0 <= k < |defaults| ==> defaults[k] !in repr && defaults[k] !in added
    ensures SoundArray(vArray, repr + added, defaults)
  {
  }

  /**
   * The array `resetAll` installs: `getInitVertexArray`, then
   * `resetVirtualVertexPos` on it, which leaves it as it is.
   */
  method ResetLayout(defaults: seq<Vec3>) returns (vArray: seq<Vertex>, ghost objs: set<object>)
    ensures fresh(objs) && SoundArray(vArray, objs, defaults)
    ensures Values(vArray) == InitLayout(Points(defaults)) && Settled(Values(vArray))
    ensures forall v :: v in vArray ==> fresh(v) && !v.isCurve
  {
    var vs, init := GetInitVertexArray(defaults);
    ghost var d := Points(defaults);
    ghost var added;
    vArray, added := RebuildArray(vs, init, defaults);
    objs := init + added;
    InitLayoutRebuilt(d);
    assert Points(defaults) == d;
    forall v | v in vArray
      ensures !v.isCurve
    {
      var i :| 0 <= i < |vArray| && vArray[i] == v;
      assert Values(vArray)[i].curve == None;
    }
  }

  /** The marker of every vertex of vs. */
  function Meshes(vs: seq<Vertex>): seq<Mesh>
  {
    seq(|vs|, i requires 0 <= i < |vs| => vs[i].mesh)
  }

  /** m is the marker of a vertex whose value in s is a main. */
  ghost predicate MainAt(meshes: seq<Mesh>, s: seq<VState>, m: Mesh)
  {
    exists i :: 0 <= i < |meshes| && i < |s| && meshes[i] == m && s[i].kind == Main
  }

  /**
   * The selection is a marker or handle of a main (an edge tube is never
   * selected), and the hovered tube belongs to a main.
   */
  ghost predicate LiveAt(meshes: seq<Mesh>, s: seq<VState>, selection: Option<Pick>, hover: Option<Pick>)
  {
    && (selection.Some? ==> !selection.value.EdgeTube? && MainAt(meshes, s, Owner(selection.value)))
    && (hover.Some? && hover.value.EdgeTube? ==> MainAt(meshes, s, hover.value.owner))
  }

  /** An edit that keeps every main a main keeps the selection and hover meaningful. */
  lemma {:induction false} MainsKeptLive(meshes: seq<Mesh>, s: seq<VState>, t: seq<VState>, selection: Option<Pick>, hover: Option<Pick>)
    requires LiveAt(meshes, s, selection, hover) && |s| == |t|
    requires forall j :: 0 <= j < |s| && s[j].kind == Main ==> t[j].kind == Main
    ensures LiveAt(meshes, t, selection, hover)
  {
    forall m | MainAt(meshes, s, m)
      ensures MainAt(meshes, t, m)
    {
      var i :| 0 <= i < |meshes| && i < |s| && meshes[i] == m && s[i].kind == Main;
      assert t[i].kind == Main;
    }
  }

  /** A new array that keeps every main vertex of the old one keeps the selection and hover meaningful. */
  lemma {:induction false} KeptLive(before: seq<Vertex>, after: seq<Vertex>, selection: Option<Pick>, hover: Option<Pick>)
    requires LiveAt(Meshes(before), Values(before), selection, hover)
    requires forall v :: v in before && v.vtype == Main ==> v in after
    ensures LiveAt(Meshes(after), Values(after), selection, hover)
  {
    forall m | MainAt(Meshes(before), Values(before), m)
      ensures MainAt(Meshes(after), Values(after), m)
    {
      var i :| 0 <= i < |before| && Meshes(before)[i] == m && Values(before)[i].kind == Main;
      assert before[i] in after;
      var j :| 0 <= j < |after| && after[j] == before[i];
      assert Meshes(after)[j] == m && Values(after)[j].kind == Main;
    }
  }

  class CubeEditor {
    /** `defaultVertextPositions`, a module constant of the source, fixed at construction here. */
    const defaults: seq<Vec3>
    /** `_enableVirtualVertext`: whether virtual markers are pickable. */
    const enableVirtualVertex: bool
    /** `_vertexArray` */
    var vertexArray: seq<Vertex>
    /** `_deepth` */
    var deepth: real
    /** `_hoverObject` */
    var hoverObject: Option<Pick>
    /** `_selectObject` */
    var selectObject: Option<Pick>
    /** `_sceneRenderer._camControls.enabled` */
    var orbitEnabled: bool
    ghost var Repr: set<object>

    /** The heap shape of the array, whose objects are all in Repr. */
    ghost predicate Sound()
      reads this, Repr
    {
      && (forall v :: v in vertexArray ==> Owned(v, Repr))
      && SoundArray(vertexArray, Repr, defaults)
    }

    /** The editor's invariant between events: sound, the defaults and the array non-empty, the array settled. */
    ghost predicate Valid()
      reads this, Repr
    {
      Sound() && |defaults| > 0 && |vertexArray| > 0 && Settled(Values(vertexArray))
    }

    /** The vectors of the vertices and of their markers: all that a refresh writes. */
    ghost function Positions(): set<Vec3>
      reads this
    {
      (set v | v in vertexArray :: v.position) + (set v | v in vertexArray :: v.mesh.position)
    }

    ghost function Cells(): set<object>
      reads this
    {
      (set v | v in vertexArray :: v as object) + Positions()
    }

    function DefaultValues(): seq<Point>
      reads set v | v in defaults
    {
      Points(defaults)
    }

    /** m is the marker of a main vertex of the array. */
    ghost predicate IsMain(m: Mesh)
      reads this, set v | v in vertexArray, set v | v in vertexArray :: v.position
    {
      MainAt(Meshes(vertexArray), Values(vertexArray), m)
    }

    /** The selection and the hovered tube belong to main vertices of the array. */
    ghost predicate Live()
      reads this, set v | v in vertexArray, set v | v in vertexArray :: v.position
    {
      LiveAt(Meshes(vertexArray), Values(vertexArray), selectObject, hoverObject)
    }

    /** A hit on the vertex group: a main marker, or a virtual one when those are enabled. */
    ghost predicate InVertexGroup(hit: Option<Mesh>)
      reads this, vertexArray
    {
      hit.Some? ==>
        exists i :: 0 <= i < |vertexArray| && vertexArray[i].mesh == hit.value &&
          (vertexArray[i].vtype == Main || enableVirtualVertex)
    }

    /** A hit on the curve group: a handle of a curved vertex. */
    ghost predicate InCurveGroup(hit: Option<HandleHit>)
      reads this, vertexArray
    {
      hit.Some? ==>
        exists i :: 0 <= i < |vertexArray| && vertexArray[i].mesh == hit.value.owner && vertexArray[i].isCurve
    }

    /** A hit on the edge group: a tube owned by a main vertex. */
    ghost predicate InEdgeGroup(hit: Option<Mesh>)
      reads this, set v | v in vertexArray, set v | v in vertexArray :: v.position
    {
      hit.Some? ==> IsMain(hit.value)
    }

    constructor (defaults: seq<Vec3>, deepth: real, enableVirtualVertex: bool)
      requires |defaults| > 0
      ensures Valid() && Live() && fresh(Repr)
      ensures this.defaults == defaults && this.deepth == deepth
      ensures this.enableVirtualVertex == enableVirtualVertex
      ensures Values(vertexArray) == InitLayout(DefaultValues())
      ensures hoverObject == None && selectObject == None && orbitEnabled
    {
      this.defaults := defaults;
      this.deepth := deepth;
      this.enableVirtualVertex := enableVirtualVertex;
      var vs, objs := GetInitVertexArray(defaults);
      vertexArray := vs;
      Repr := objs;
      hoverObject := None;
      selectObject := None;
      orbitEnabled := true;
      new;
      InitLayoutRebuilt(DefaultValues());
    }

    /**
     * `setVirtualVertexPos`: one pass in index order, each virtual moved to the
     * midpoint of the current positions of its neighbours.
     */
    method SetVirtualVertexPos()
      requires Sound()
      requires |vertexArray| > 0 ==> vertexArray[0].vtype != Virtual
      modifies Positions()
      ensures Sound()
      ensures Values(vertexArray) == RefreshAll(old(Values(vertexArray)))
    {
      ghost var s0 := Values(vertexArray);
      var n := |vertexArray|;
      for index := 0 to n
        invariant Sound()
        invariant Values(vertexArray) == RefreshUpTo(s0, index)
      {
        var vertex := vertexArray[index];
        if vertex.vtype == Virtual {
          CentreVirtualAt(index);
        }
      }
    }

    /** The body of the forEach in `setVirtualVertexPos` at a virtual index. */
    method CentreVirtualAt(index: nat)
      requires Sound() && 0 < index < |vertexArray| && vertexArray[index].vtype == Virtual
      modifies vertexArray[index].position, vertexArray[index].mesh.position
      ensures Sound()
      ensures Values(vertexArray) == RefreshStep(old(Values(vertexArray)), index)
    {
      ghost var t := Values(vertexArray);
      var vertex := vertexArray[index];
      var firstPos := vertexArray[index - 1].position;
      var secondPosIndex := if index == |vertexArray| - 1 then 0 else index + 1;
      var secondPos := vertexArray[secondPosIndex].position;
      var centerPos := GetCenterVector(firstPos, secondPos);
      assert centerPos.Value() == Center(t[index - 1].pos, t[NextIndex(index, |t|)].pos);
      SetVertexPosition(vertex, centerPos, index);
    }

    /** `setPosition` on the vertex at index i: only its position changes. */
    method SetVertexPosition(vertex: Vertex, p: Vec3, ghost i: nat)
      requires Sound() && i < |vertexArray| && vertexArray[i] == vertex
      modifies vertex.position, vertex.mesh.position
      ensures Sound()
      ensures Values(vertexArray) == Moved(old(Values(vertexArray)), i, old(p.Value()))
    {
      ghost var t := Values(vertexArray);
      vertex.SetPosition(p);
      forall v | v in vertexArray && v != vertex
        ensures v.Valid() && v.State() == old(v.State())
      {
        assert Apart(v, vertex);
      }
      assert forall j :: 0 <= j < |vertexArray| && j != i ==> vertexArray[j] in vertexArray && vertexArray[j] != vertex;
    }

    /** `changeCurvePos` on the vertex at index i: only its handles change. */
    method MoveHandle(vertex: Vertex, slot: HandleSlot, p: Point, ghost i: nat)
      requires Sound() && i < |vertexArray| && vertexArray[i] == vertex
      modifies vertex`curvePoints
      ensures Sound()
      ensures Values(vertexArray) ==
        old(Values(vertexArray))[i := old(Values(vertexArray))[i].(curve := MovedHandle(old(vertex.curvePoints), slot, p))]
    {
      ghost var t := Values(vertexArray);
      vertex.ChangeCurvePos(slot, p);
      forall j | 0 <= j < |vertexArray| && j != i
        ensures vertexArray[j].State() == t[j]
      {
        assert vertexArray[j] != vertex;
      }
    }

    /** `changeToMain` on the vertex at index i. */
    method PromoteAt(vertex: Vertex, ghost i: nat)
      requires Sound() && i < |vertexArray| && vertexArray[i] == vertex
      modifies vertex`vtype
      ensures Sound() && vertex.vtype == Main
      ensures Values(vertexArray) == Promoted(old(Values(vertexArray)), i)
      ensures MainVertices(vertexArray) ==
        old(MainVertices(vertexArray[..i])) + [vertex] + old(MainVertices(vertexArray[i + 1..]))
    {
      ghost var t := Values(vertexArray);
      ghost var left, right := vertexArray[..i], vertexArray[i + 1..];
      assert vertex !in left && vertex !in right;
      vertex.ChangeToMain();
      MainVerticesKept(left);
      MainVerticesKept(right);
      MainVerticesAround(vertexArray, i);
      forall j | 0 <= j < |vertexArray| && j != i
        ensures vertexArray[j].State() == t[j]
      {
        assert vertexArray[j] != vertex;
      }
    }

    /** `changeToCurve` or `changeFromCurve` on the vertex at index i, as its curvedness says. */
    method ToggleAt(vertex: Vertex, seeds: Handles, ghost i: nat)
      requires Sound() && i < |vertexArray| && vertexArray[i] == vertex
      modifies vertex`isCurve, vertex`curvePoints
      ensures Sound() && vertex.isCurve == !old(vertex.isCurve)
      ensures Values(vertexArray) == Toggled(old(Values(vertexArray)), i, seeds)
    {
      ghost var t := Values(vertexArray);
      assert vertex.Valid();
      if vertex.isCurve {
        vertex.ChangeFromCurve();
      } else {
        vertex.ChangeToCurve(seeds);
      }
      forall j | 0 <= j < |vertexArray| && j != i
        ensures vertexArray[j].State() == t[j]
      {
        assert vertexArray[j] != vertex;
      }
    }

    /**
     * `resetVirtualVertexPos`: keeps the main vertices, in order, and pushes a
     * fresh virtual after each one that is not curved.
     */
    method ResetVirtualVertexPos()
      requires Sound()
      modifies this`vertexArray, this`Repr
      ensures Sound() && old(Repr) <= Repr && fresh(Repr - old(Repr))
      ensures Values(vertexArray) == Rebuild(old(Values(vertexArray)))
      ensures MainVertices(vertexArray) == old(MainVertices(vertexArray))
      ensures forall v :: v in vertexArray ==>
        (v in old(vertexArray) && v.vtype == Main) || (fresh(v) && v.vtype == Virtual)
      ensures forall v :: v in old(vertexArray) && v.vtype == Main ==> v in vertexArray
    {
      var vArray, added := RebuildArray(vertexArray, Repr, defaults);
      label Rebuilt:
      vertexArray, Repr := vArray, Repr + added;
      MainVerticesKept@Rebuilt(vArray);
    }

    /** `getNextMainVertex`: the cyclic successor within the main subsequence. */
    function GetNextMainVertex(vertexMain: Vertex): (r: Option<Vertex>)
      reads this, vertexArray
      ensures r.None? <==> MainVertices(vertexArray) == []
      ensures r.Some? ==> r.value in MainVertices(vertexArray)
      ensures vertexMain !in MainVertices(vertexArray) && MainVertices(vertexArray) != [] ==>
        r == Some(MainVertices(vertexArray)[0])
    {
      NextMain(MainVertices(vertexArray), vertexMain)
    }

    /** Main k's successor is main k + 1, the last main's the first. */
    lemma {:induction false} NextMainAt(k: int)
      requires NoDup(vertexArray) && 0 <= k < |MainVertices(vertexArray)|
      ensures GetNextMainVertex(MainVertices(vertexArray)[k]) ==
        Some(MainVertices(vertexArray)[NextIndex(k, |MainVertices(vertexArray)|)])
    {
      MainVerticesNoDup(vertexArray);
      NextMainOf(MainVertices(vertexArray), k);
    }

    /** `getVertexByUuid`: the vertex whose marker is id, if any. */
    function GetVertexByUuid(id: Mesh): (r: Option<Vertex>)
      reads this
      ensures r.Some? ==> r.value in vertexArray && r.value.mesh == id
      ensures r.None? <==> forall i :: 0 <= i < |vertexArray| ==> vertexArray[i].mesh != id
    {
      FindByMesh(vertexArray, id)
    }

    /** Markers tell vertices apart: each vertex has a marker vector of its own. */
    lemma {:induction false} MarkersDistinct(i: int, j: int)
      requires Sound() && 0 <= i < |vertexArray| && 0 <= j < |vertexArray|
      requires vertexArray[i].mesh == vertexArray[j].mesh
      ensures i == j
    {
      var a, b := vertexArray[i], vertexArray[j];
      assert a == b || Apart(a, b);
    }

    /** The lookup by uuid finds exactly the vertex owning the marker. */
    lemma {:induction false} LookupFinds(i: int)
      requires Sound() && 0 <= i < |vertexArray|
      ensures GetVertexByUuid(vertexArray[i].mesh) == Some(vertexArray[i])
    {
      var r := GetVertexByUuid(vertexArray[i].mesh);
      var j :| 0 <= j < |vertexArray| && vertexArray[j] == r.value;
      MarkersDistinct(i, j);
    }

    /** `setEdgeGroup`: one tube per main vertex, in main order. */
    function EdgeGroup(): (r: seq<Edge>)
      reads this, vertexArray, Cells()
      ensures |r| == |MainVertices(vertexArray)|
    {
      var mainArray := MainVertices(vertexArray);
      MainVerticesIn(vertexArray);
      Tubes(mainArray, |mainArray|)
    }

    /** Tube k is named after main k, is curved exactly when main k is, and follows edge k of the values. */
    lemma {:induction false} EdgeGroupSpec(k: int)
      requires 0 <= k < |MainVertices(vertexArray)|
      ensures |EdgeGroup()| == |EdgePaths(Values(vertexArray))|
      ensures EdgeGroup()[k].name == MainVertices(vertexArray)[k].mesh
      ensures EdgeGroup()[k].curved <==> MainVertices(vertexArray)[k].isCurve
      ensures EdgeGroup()[k].path == EdgePaths(Values(vertexArray))[k]
    {
      var m := MainVertices(vertexArray);
      TubesAt(m, |m|, k);
      ValuesOfMains(vertexArray);
      assert Values(m)[k] == m[k].State();
      assert Values(m)[NextIndex(k, |m|)] == m[NextIndex(k, |m|)].State();
    }

    /**
     * The tube of main k is the way back to it: the lookup by its name finds
     * main k, and it ends at the position of `getNextMainVertex` of main k.
     */
    lemma {:induction false} EdgeGroupLinks(k: int)
      requires Sound() && 0 <= k < |MainVertices(vertexArray)|
      ensures GetVertexByUuid(EdgeGroup()[k].name) == Some(MainVertices(vertexArray)[k])
      ensures GetNextMainVertex(MainVertices(vertexArray)[k]).Some?
      ensures EdgeGroup()[k].path.to == GetNextMainVertex(MainVertices(vertexArray)[k]).value.position.Value()
    {
      var m := MainVertices(vertexArray);
      TubesAt(m, |m|, k);
      var i := MainVertexAt(vertexArray, k);
      LookupFinds(i);
      NextMainAt(k);
    }

    /**
     * `setExtrudeMesh`: the profile of the main vertices, extruded by the
     * editor's depth without bevel. The invariant supplies the main vertex
     * whose absence would make the source throw.
     */
    function ExtrudeMesh(): (e: Extrusion)
      requires Valid()
      reads this, Repr, set v | v in vertexArray, set v | v in vertexArray :: v.position
      ensures e.settings.depth == deepth && !e.settings.bevelEnabled
      ensures var m := Mains(Values(vertexArray));
        && m != []
        && |e.shape| == 1 + |m| + (|m| - CountStraight(m))
        && e.shape[0] == MoveTo(Project(m[|m| - 1].pos))
    {
      SettledHasMain(Values(vertexArray));
      OutlineLength(Values(vertexArray));
      Extrusion(Outline(Values(vertexArray)), ExtrudeSettings(deepth, false))
    }

    /** `setDeepth`: the depth is stored as given; the extrusion takes it and keeps its profile. */
    method SetDeepth(d: real)
      requires Valid()
      modifies this`deepth
      ensures Valid() && deepth == d
      ensures ExtrudeMesh().settings.depth == d
      ensures ExtrudeMesh().shape == old(ExtrudeMesh().shape)
    {
      deepth := d;
    }

    /**
     * `resetAll`: the initial layout again, on fresh vertices. Selection and
     * hover are not cleared, so they stay meaningful only if there were none.
     */
    method ResetAll()
      requires Valid()
      modifies this`vertexArray, this`Repr
      ensures Valid() && old(Repr) <= Repr && fresh(Repr - old(Repr))
      ensures Values(vertexArray) == InitLayout(DefaultValues())
      ensures forall v :: v in vertexArray ==> fresh(v) && !v.isCurve
      ensures old(selectObject).None? && (old(hoverObject).None? || !old(hoverObject).value.EdgeTube?) ==> Live()
    {
      var vArray, objs := ResetLayout(defaults);
      SoundArrayGrow(vArray, objs, Repr, defaults);
      vertexArray := vArray;
      Repr := Repr + objs;
    }

    /** `moveUpEventHandler`: releases the selection; orbiting is re-enabled only if there was one. */
    method MoveUpEventHandler()
      requires Valid() && Live()
      modifies this`selectObject, this`orbitEnabled
      ensures Valid() && Live()
      ensures selectObject == None
      ensures orbitEnabled == (old(selectObject).Some? || old(orbitEnabled))
    {
      if selectObject.Some? {
        selectObject := None;
        orbitEnabled := true;
      }
    }

    /**
     * `mouseMoveEventListner`: hover goes to a vertex, else a curve handle, else
     * an edge, else nothing; with a selection, the selected vertex or handle is
     * moved to the plane point and the virtuals refreshed.
     */
    method MouseMoveEventListener(vertexHit: Option<Mesh>, curveHit: Option<HandleHit>, edgeHit: Option<Mesh>,
                                  planeIntersectPos: Point)
      requires Valid() && Live()
      requires InVertexGroup(vertexHit) && InCurveGroup(curveHit) && InEdgeGroup(edgeHit)
      modifies this`hoverObject, vertexArray, Positions()
      ensures Valid() && Live()
      ensures vertexArray == old(vertexArray) && selectObject == old(selectObject)
      ensures hoverObject ==
        if vertexHit.Some? then Some(VertexMarker(vertexHit.value))
        else if curveHit.Some? then Some(CurveMarker(curveHit.value.owner, curveHit.value.slot))
        else if edgeHit.Some? then Some(EdgeTube(edgeHit.value))
        else None
      ensures selectObject.None? ==> Values(vertexArray) == old(Values(vertexArray))
      ensures forall i :: 0 <= i < |vertexArray| && selectObject == Some(VertexMarker(vertexArray[i].mesh)) ==>
        Values(vertexArray) == RefreshAll(Moved(old(Values(vertexArray)), i, planeIntersectPos))
      ensures forall i, slot :: 0 <= i < |vertexArray| && selectObject == Some(CurveMarker(vertexArray[i].mesh, slot)) ==>
        Values(vertexArray) == old(Values(vertexArray))[i := old(Values(vertexArray))[i].(curve :=
          MovedHandle(old(Values(vertexArray))[i].curve, slot, planeIntersectPos))]
    {
      var hoverMesh: Option<Pick> :=
        if vertexHit.Some? then Some(VertexMarker(vertexHit.value))
        else if curveHit.Some? then Some(CurveMarker(curveHit.value.owner, curveHit.value.slot))
        else if edgeHit.Some? then Some(EdgeTube(edgeHit.value))
        else None;
      Hover(hoverMesh);
      if selectObject.Some? {
        DragSelection(planeIntersectPos);
      }
    }

    /** The hover update at the head of `mouseMoveEventListner`. */
    method Hover(hoverMesh: Option<Pick>)
      requires Valid() && LiveAt(Meshes(vertexArray), Values(vertexArray), selectObject, hoverMesh)
      modifies this`hoverObject
      ensures Valid() && Live() && hoverObject == hoverMesh
      ensures Values(vertexArray) == old(Values(vertexArray))
    {
      if hoverMesh.Some? {
        hoverObject := hoverMesh;
      } else if hoverObject.Some? {
        hoverObject := None;
      }
    }

    /** The part of `mouseMoveEventListner` run under a selection. */
    method DragSelection(planeIntersectPos: Point)
      requires Valid() && Live() && selectObject.Some?
      modifies vertexArray, Positions()
      ensures Valid() && Live()
      ensures forall i :: 0 <= i < |vertexArray| && selectObject == Some(VertexMarker(vertexArray[i].mesh)) ==>
        Values(vertexArray) == RefreshAll(Moved(old(Values(vertexArray)), i, planeIntersectPos))
      ensures forall i, slot :: 0 <= i < |vertexArray| && selectObject == Some(CurveMarker(vertexArray[i].mesh, slot)) ==>
        Values(vertexArray) == old(Values(vertexArray))[i := old(Values(vertexArray))[i].(curve :=
          MovedHandle(old(Values(vertexArray))[i].curve, slot, planeIntersectPos))]
    {
      // each branch ends with the `setVirtualVertexPos` that follows the branches in the source
      var pick := selectObject.value;
      if pick.VertexMarker? {
        DragVertex(pick.mesh, planeIntersectPos);
      } else {
        DragHandle(pick.owner, pick.slot, planeIntersectPos);
      }
    }

    /** A selected vertex marker: `setPosition` on its vertex, found by uuid, then `setVirtualVertexPos`. */
    method DragVertex(m: Mesh, p: Point)
      requires Valid() && Live() && IsMain(m)
      modifies Positions()
      ensures Valid() && Live()
      ensures forall i :: 0 <= i < |vertexArray| && vertexArray[i].mesh == m ==>
        Values(vertexArray) == RefreshAll(Moved(old(Values(vertexArray)), i, p))
    {
      ghost var s0 := Values(vertexArray);
      ghost var i :| 0 <= i < |vertexArray| && vertexArray[i].mesh == m && vertexArray[i].vtype == Main;
      OnlyOwner(i);
      LookupFinds(i);
      var vertexObject := GetVertexByUuid(m);
      var planePoint := new Vec3.At(p);
      assert Values(vertexArray) == s0;
      SetVertexPosition(vertexObject.value, planePoint, i);
      ghost var s1 := Values(vertexArray);
      MainsKeptLive(Meshes(vertexArray), s0, s1, selectObject, hoverObject);
      DragSettles(s0, i, p);
      SetVirtualVertexPos();
      MainsKeptLive(Meshes(vertexArray), s1, Values(vertexArray), selectObject, hoverObject);
      assert Values(vertexArray) == RefreshAll(Moved(s0, i, p));
    }

    /** A selected handle marker: `changeCurvePos` on its owner, found by uuid, then `setVirtualVertexPos`. */
    method DragHandle(owner: Mesh, slot: HandleSlot, p: Point)
      requires Valid() && Live() && IsMain(owner)
      modifies vertexArray, Positions()
      ensures Valid() && Live()
      ensures forall i :: 0 <= i < |vertexArray| && vertexArray[i].mesh == owner ==>
        Values(vertexArray) == old(Values(vertexArray))[i := old(Values(vertexArray))[i].(curve :=
          MovedHandle(old(Values(vertexArray))[i].curve, slot, p))]
    {
      ghost var s0 := Values(vertexArray);
      ghost var i :| 0 <= i < |vertexArray| && vertexArray[i].mesh == owner && vertexArray[i].vtype == Main;
      OnlyOwner(i);
      LookupFinds(i);
      var vertexObject := GetVertexByUuid(owner);
      MoveHandle(vertexObject.value, slot, p, i);
      ghost var s1 := Values(vertexArray);
      MainsKeptLive(Meshes(vertexArray), s0, s1, selectObject, hoverObject);
      if s0[i].curve.Some? {
        RehandleSettled(s0, i, MovedHandle(s0[i].curve, slot, p).value);
      } else {
        assert s1 == s0;
      }
      RefreshSettledIsIdentity(s1);
      SetVirtualVertexPos();
      MainsKeptLive(Meshes(vertexArray), s1, Values(vertexArray), selectObject, hoverObject);
      assert Values(vertexArray) == s1 == s0[i := s0[i].(curve := MovedHandle(s0[i].curve, slot, p))];
    }

    /** Only vertex i has the marker of vertex i. */
    lemma {:induction false} OnlyOwner(i: int)
      requires Sound() && 0 <= i < |vertexArray|
      ensures forall j :: 0 <= j < |vertexArray| && vertexArray[j].mesh == vertexArray[i].mesh ==> j == i
    {
      forall j | 0 <= j < |vertexArray| && vertexArray[j].mesh == vertexArray[i].mesh
        ensures j == i
      {
        MarkersDistinct(j, i);
      }
    }

    /** A vertex of a settled array that is curved is a main. */
    lemma {:induction false} CurvedIsMain(i: int)
      requires Valid() && 0 <= i < |vertexArray| && vertexArray[i].isCurve
      ensures vertexArray[i].vtype == Main
    {
      assert vertexArray[i].Valid();
      SettledCurvedIsMain(Values(vertexArray), i);
    }

    /**
     * `mouseDownEventListner`: a vertex hit beats a handle hit; a hit virtual is
     * promoted and the array rebuilt before it is selected; any selection stops
     * orbiting.
     */
    method MouseDownEventListener(vertexHit: Option<Mesh>, curveHit: Option<HandleHit>)
      requires Valid() && Live()
      requires InVertexGroup(vertexHit) && InCurveGroup(curveHit)
      modifies this`vertexArray, this`Repr, this`selectObject, this`orbitEnabled, vertexArray
      ensures Valid() && Live() && old(Repr) <= Repr && fresh(Repr - old(Repr))
      ensures vertexHit.Some? ==> selectObject == Some(VertexMarker(vertexHit.value)) && !orbitEnabled
      ensures vertexHit.None? && curveHit.Some? ==>
        selectObject == Some(CurveMarker(curveHit.value.owner, curveHit.value.slot)) && !orbitEnabled
      ensures vertexHit.None? && curveHit.None? ==>
        selectObject == old(selectObject) && orbitEnabled == old(orbitEnabled)
      ensures vertexHit.Some? ==>
        // the vertex `getVertexByUuid` finds for the hit marker
        var i := FindIndex(Meshes(old(vertexArray)), vertexHit.value);
        && 0 <= i < |old(vertexArray)| && old(vertexArray)[i].mesh == vertexHit.value
        && old(vertexArray)[i] in vertexArray && old(vertexArray)[i].vtype == Main
        && (old(vertexArray[i].vtype) == Virtual ==>
              && Values(vertexArray) == Rebuild(Promoted(old(Values(vertexArray)), i))
              && |Mains(Values(vertexArray))| == |Mains(old(Values(vertexArray)))| + 1
              && MainVertices(vertexArray) ==
                   old(MainVertices(vertexArray[..i])) + [old(vertexArray)[i]] + old(MainVertices(vertexArray[i + 1..])))
        && (old(vertexArray[i].vtype) == Main ==>
              vertexArray == old(vertexArray) && Values(vertexArray) == old(Values(vertexArray)))
      ensures vertexHit.None? ==> vertexArray == old(vertexArray) && Values(vertexArray) == old(Values(vertexArray))
    {
      if vertexHit.Some? {
        ghost var k :| 0 <= k < |vertexArray| && vertexArray[k].mesh == vertexHit.value;
        assert Meshes(vertexArray)[k] == vertexHit.value;
        ghost var i := FindIndex(Meshes(vertexArray), vertexHit.value);
        GrabVertex(vertexHit.value, i);
      } else if curveHit.Some? {
        ghost var i :| 0 <= i < |vertexArray| && vertexArray[i].mesh == curveHit.value.owner && vertexArray[i].isCurve;
        CurvedIsMain(i);
        MainHere(i);
        Grab(CurveMarker(curveHit.value.owner, curveHit.value.slot));
      }
    }

    /** The vertex-hit branch of `mouseDownEventListner`. */
    method GrabVertex(m: Mesh, ghost i: nat)
      requires Valid() && Live() && i < |vertexArray| && vertexArray[i].mesh == m
      modifies this`vertexArray, this`Repr, this`selectObject, this`orbitEnabled, vertexArray
      ensures Valid() && Live() && old(Repr) <= Repr && fresh(Repr - old(Repr))
      ensures selectObject == Some(VertexMarker(m)) && !orbitEnabled
      ensures old(vertexArray)[i] in vertexArray && old(vertexArray)[i].vtype == Main
      ensures old(vertexArray[i].vtype) == Virtual ==>
        && Values(vertexArray) == Rebuild(Promoted(old(Values(vertexArray)), i))
        && |Mains(Values(vertexArray))| == |Mains(old(Values(vertexArray)))| + 1
        && MainVertices(vertexArray) ==
             old(MainVertices(vertexArray[..i])) + [old(vertexArray)[i]] + old(MainVertices(vertexArray[i + 1..]))
      ensures old(vertexArray[i].vtype) == Main ==>
        vertexArray == old(vertexArray) && Values(vertexArray) == old(Values(vertexArray))
    {
      LookupFinds(i);
      var hoverVertex := GetVertexByUuid(m);
      MakeMain(hoverVertex.value, i);
      Grab(VertexMarker(m));
    }

    /** The hit vertex becomes a main: a virtual is promoted and the array rebuilt, a main is left alone. */
    method MakeMain(vertex: Vertex, ghost i: nat)
      requires Valid() && Live() && i < |vertexArray| && vertexArray[i] == vertex
      modifies this`vertexArray, this`Repr, vertexArray
      ensures Valid() && Live() && old(Repr) <= Repr && fresh(Repr - old(Repr))
      ensures vertex in vertexArray && vertex.vtype == Main && IsMain(vertex.mesh)
      ensures selectObject == old(selectObject) && orbitEnabled == old(orbitEnabled)
      ensures old(vertex.vtype) == Virtual ==>
        && Values(vertexArray) == Rebuild(Promoted(old(Values(vertexArray)), i))
        && |Mains(Values(vertexArray))| == |Mains(old(Values(vertexArray)))| + 1
        && MainVertices(vertexArray) ==
             old(MainVertices(vertexArray[..i])) + [vertex] + old(MainVertices(vertexArray[i + 1..]))
      ensures old(vertex.vtype) == Main ==>
        vertexArray == old(vertexArray) && Values(vertexArray) == old(Values(vertexArray))
    {
      ghost var s0 := Values(vertexArray);
      if vertex.vtype == Virtual {
        PromoteAndRebuild(vertex, i);
      } else {
        assert s0[i].kind == Main;
      }
      ghost var j :| 0 <= j < |vertexArray| && vertexArray[j] == vertex;
      MainHere(j);
    }

    /** Selects a marker or handle of a main vertex and stops orbiting. */
    method Grab(pick: Pick)
      requires Valid() && Live() && !pick.EdgeTube? && IsMain(Owner(pick))
      modifies this`selectObject, this`orbitEnabled
      ensures Valid() && Live() && selectObject == Some(pick) && !orbitEnabled
      ensures Values(vertexArray) == old(Values(vertexArray))
      ensures MainVertices(vertexArray) == old(MainVertices(vertexArray))
    {
      selectObject := Some(pick);
      orbitEnabled := false;
    }

    /** The marker of a main vertex is a main's marker. */
    lemma {:induction false} MainHere(j: int)
      requires 0 <= j < |vertexArray| && vertexArray[j].vtype == Main
      ensures IsMain(vertexArray[j].mesh)
    {
      assert Meshes(vertexArray)[j] == vertexArray[j].mesh && Values(vertexArray)[j].kind == Main;
    }

    /** `changeToMain` on the hit virtual, then `resetVirtualVertexPos`. */
    method PromoteAndRebuild(vertex: Vertex, ghost i: nat)
      requires Valid() && Live() && i < |vertexArray| && vertexArray[i] == vertex && vertex.vtype == Virtual
      modifies this`vertexArray, this`Repr, vertex`vtype
      ensures Valid() && Live() && old(Repr) <= Repr && fresh(Repr - old(Repr))
      ensures vertex in vertexArray && vertex.vtype == Main
      ensures Values(vertexArray) == Rebuild(Promoted(old(Values(vertexArray)), i))
      ensures |Mains(Values(vertexArray))| == |Mains(old(Values(vertexArray)))| + 1
      ensures MainVertices(vertexArray) ==
        old(MainVertices(vertexArray[..i])) + [vertex] + old(MainVertices(vertexArray[i + 1..]))
    {
      ghost var s0 := Values(vertexArray);
      ghost var before := vertexArray;
      PromoteRebuilt(s0, i);
      PromoteAt(vertex, i);
      ghost var s1, m1 := Values(before), MainVertices(before);
      MainsKeptLive(Meshes(before), s0, s1, selectObject, hoverObject);
      ResetVirtualVertexPos();
      assert Values(before) == s1 && MainVertices(vertexArray) == m1;
      KeptLive(before, vertexArray, selectObject, hoverObject);
    }

    /**
     * `dblClickEventHandler`: over an edge tube, flips its owner between straight
     * and curved (with the given handles) and rebuilds the virtuals.
     */
    method DblClickEventHandler(seeds: Handles)
      requires Valid() && Live()
      modifies this`vertexArray, this`Repr, vertexArray
      ensures Valid() && Live() && old(Repr) <= Repr && fresh(Repr - old(Repr))
      ensures !(hoverObject.Some? && hoverObject.value.EdgeTube?) ==>
        vertexArray == old(vertexArray) && Values(vertexArray) == old(Values(vertexArray))
      ensures forall i :: 0 <= i < |old(vertexArray)| && hoverObject == Some(EdgeTube(old(vertexArray)[i].mesh)) ==>
        && Values(vertexArray) == Rebuild(Toggled(old(Values(vertexArray)), i, seeds))
        && old(vertexArray)[i] in vertexArray
        && old(vertexArray)[i].isCurve == !old(vertexArray[i].isCurve)
      ensures MainVertices(vertexArray) == old(MainVertices(vertexArray))
    {
      if hoverObject.Some? && hoverObject.value.EdgeTube? {
        ghost var i :| 0 <= i < |vertexArray| && vertexArray[i].mesh == hoverObject.value.owner && vertexArray[i].vtype == Main;
        OnlyOwner(i);
        LookupFinds(i);
        var ownVertex := GetVertexByUuid(hoverObject.value.owner);
        ToggleAndRebuild(ownVertex.value, seeds, i);
      }
    }

    /** `changeToCurve` or `changeFromCurve` on the owner of the hovered tube, then `resetVirtualVertexPos`. */
    method ToggleAndRebuild(vertex: Vertex, seeds: Handles, ghost i: nat)
      requires Valid() && Live() && i < |vertexArray| && vertexArray[i] == vertex && vertex.vtype == Main
      modifies this`vertexArray, this`Repr, vertex`isCurve, vertex`curvePoints
      ensures Valid() && Live() && old(Repr) <= Repr && fresh(Repr - old(Repr))
      ensures Values(vertexArray) == Rebuild(Toggled(old(Values(vertexArray)), i, seeds))
      ensures vertex in vertexArray && vertex.isCurve == !old(vertex.isCurve)
      ensures MainVertices(vertexArray) == old(MainVertices(vertexArray))
    {
      ghost var s0 := Values(vertexArray);
      ghost var before := vertexArray;
      ghost var m0 := MainVertices(before);
      ToggleRebuilt(s0, i, seeds);
      ToggleAt(vertex, seeds, i);
      ghost var s1 := Values(before);
      MainVerticesKept(before);
      MainsKeptLive(Meshes(before), s0, s1, selectObject, hoverObject);
      ResetVirtualVertexPos();
      assert Values(before) == s1;
      KeptLive(before, vertexArray, selectObject, hoverObject);
    }
  }
}
