/**
 * A boundary vertex of the editor (src/component/Vertex.ts), with the curve
 * members that src/component/CubeEditor.ts uses on it.
 */
module VertexModel {
  import opened Wrappers
  import opened Geometry
  import opened Layout

  /** The marker sphere drawn for a vertex (`_mesh`); its object identity is its uuid. */
  class Mesh {
    const position: Vec3

    constructor ()
      ensures fresh(position) && position.Value() == Point(0.0, 0.0, 0.0)
    {
      position := new Vec3();
    }
  }

  /** Which of a curved vertex's two handles a handle marker stands for. */
  datatype HandleSlot = First | Second

  /** The handles after moving the one in `slot` to p; a vertex without handles keeps none. */
  function MovedHandle(c: Option<Handles>, slot: HandleSlot, p: Point): (r: Option<Handles>)
    ensures r.Some? == c.Some?
    ensures r.Some? ==> (if slot == First then r.value.first == p && r.value.second == c.value.second
                         else r.value.second == p && r.value.first == c.value.first)
  {
    match c
    case None => None
    case Some(h) => Some(if slot == First then h.(first := p) else h.(second := p))
  }

  /** a and b share no vector: neither their own nor their markers'. Implies a != b. */
  ghost predicate Apart(a: Vertex, b: Vertex)
  {
    && a.position != b.position && a.position != b.mesh.position
    && a.mesh.position != b.position && a.mesh.position != b.mesh.position
  }

  /** The vertex and both of its vectors are in s. */
  ghost predicate Owned(v: Vertex, s: set<object>)
  {
    v in s && v.position in s && v.mesh.position in s
  }

  /** Neither the vertex nor its vectors are in s. */
  ghost predicate Foreign(v: Vertex, s: set<object>)
  {
    v !in s && v.position !in s && v.mesh.position !in s
  }

  class Vertex {
    /** `_type` */
    var vtype: VertexType
    /** `_position`: set once by the constructor, afterwards only updated in place. */
    const position: Vec3
    /** `_mesh` */
    const mesh: Mesh
    /** `_isCurve` */
    var isCurve: bool
    /** `_curvePoints` */
    var curvePoints: Option<Handles>

    /** The objects this vertex owns. */
    ghost function Footprint(): set<object>
    {
      {this, position, mesh.position}
    }

    /** The marker sits at the vertex position, and handles exist exactly when the vertex is curved. */
    ghost predicate Valid()
      reads this, position, mesh.position
    {
      && position != mesh.position
      && mesh.position.Value() == position.Value()
      && (isCurve <==> curvePoints.Some?)
    }

    function State(): VState
      reads this, position
    {
      VState(vtype, position.Value(), curvePoints)
    }

    /** Stores the given vector object itself (no copy); the marker gets a copy of its value. */
    constructor (position: Vec3, vtype: VertexType)
      ensures this.position == position && this.vtype == vtype
      ensures fresh(mesh) && fresh(mesh.position)
      ensures !isCurve && curvePoints == None
      ensures Valid() && State() == VState(vtype, position.Value(), None)
    {
      this.position := position;
      this.vtype := vtype;
      isCurve := false;
      curvePoints := None;
      mesh := new Mesh();
      new;
      mesh.position.Copy(position);
    }

    /** `changeToMain`: only the type changes (the restyling of the marker is not modelled). */
    method ChangeToMain()
      modifies this`vtype
      ensures vtype == Main
      ensures State() == old(State()).(kind := Main)
      ensures old(vtype) == Main ==> State() == old(State())
    {
      vtype := Main;
    }

    /** `setPosition`: copies the value of p into this vertex's own vector and into the marker's. */
    method SetPosition(p: Vec3)
      requires Valid()
      modifies position, mesh.position
      ensures Valid()
      ensures position.Value() == old(p.Value())
    {
      position.Copy(p);
      mesh.position.Copy(p);
    }

    /** `changeToCurve(h1, h2)` */
    method ChangeToCurve(h: Handles)
      modifies this`isCurve, this`curvePoints
      ensures isCurve && curvePoints == Some(h)
    {
      isCurve := true;
      curvePoints := Some(h);
    }

    /** `changeFromCurve()`: the handles are released. */
    method ChangeFromCurve()
      modifies this`isCurve, this`curvePoints
      ensures !isCurve && curvePoints == None
    {
      isCurve := false;
      curvePoints := None;
    }

    /** `changeCurvePos(handle, p)`: moves one handle of a curved vertex; nothing to move otherwise. */
    method ChangeCurvePos(slot: HandleSlot, p: Point)
      modifies this`curvePoints
      ensures curvePoints == MovedHandle(old(curvePoints), slot, p)
    {
      match curvePoints
      case None =>
      case Some(h) =>
        curvePoints := Some(if slot == First then h.(first := p) else h.(second := p));
    }
  }
}
