/**
 * The slice of three.js vector arithmetic the editor uses (src/utils/three.ts).
 * Coordinates are idealised reals.
 */
module Geometry {

  /** The value held by a THREE.Vector3. */
  datatype Point = Point(x: real, y: real, z: real)

  function Add(a: Point, b: Point): Point
  {
    Point(a.x + b.x, a.y + b.y, a.z + b.z)
  }

  /** The value `getCenterVector(a, b)` computes: the point halfway between a and b. */
  function Center(a: Point, b: Point): (c: Point)
    ensures c.x - a.x == b.x - c.x && c.y - a.y == b.y - c.y && c.z - a.z == b.z - c.z
  {
    Point((a.x + b.x) / 2.0, (a.y + b.y) / 2.0, (a.z + b.z) / 2.0)
  }

  /** The midpoint is the only point equidistant from both ends along every axis. */
  lemma CenterUnique(a: Point, b: Point, c: Point)
    requires c.x - a.x == b.x - c.x && c.y - a.y == b.y - c.y && c.z - a.z == b.z - c.z
    ensures c == Center(a, b)
  {
  }

  lemma CenterSymmetric(a: Point, b: Point)
    ensures Center(a, b) == Center(b, a)
  {
  }

  lemma CenterSame(a: Point)
    ensures Center(a, a) == a
  {
  }

  /** A mutable three-component vector: a THREE.Vector3. */
  class Vec3 {
    var x: real
    var y: real
    var z: real

    function Value(): Point
      reads this
    {
      Point(x, y, z)
    }

    /** `new THREE.Vector3()` */
    constructor ()
      ensures Value() == Point(0.0, 0.0, 0.0)
    {
      x, y, z := 0.0, 0.0, 0.0;
    }

    /** A vector holding the given value (a vector produced by a collaborator). */
    constructor At(p: Point)
      ensures Value() == p
    {
      x, y, z := p.x, p.y, p.z;
    }

    /** `v.copy(w)`: overwrite this vector's components with w's, keeping this object. */
    method Copy(w: Vec3)
      modifies this
      ensures Value() == old(w.Value())
    {
      x, y, z := w.x, w.y, w.z;
    }

    /** `v.addVectors(a, b)` */
    method AddVectors(a: Vec3, b: Vec3)
      modifies this
      ensures Value() == Add(old(a.Value()), old(b.Value()))
    {
      x, y, z := a.x + b.x, a.y + b.y, a.z + b.z;
    }

    /** `v.divideScalar(s)`; the editor only ever divides by 2. */
    method DivideScalar(s: real)
      requires s != 0.0
      modifies this
      ensures Value() == Point(old(x) / s, old(y) / s, old(z) / s)
    {
      x, y, z := x / s, y / s, z / s;
    }
  }

  /**
   * `getCenterVector(a, b)`: a freshly allocated vector at the midpoint of a and b;
   * neither argument is modified (the method may modify nothing it did not allocate).
   */
  method GetCenterVector(a: Vec3, b: Vec3) returns (r: Vec3)
    ensures fresh(r)
    ensures r.Value() == Center(a.Value(), b.Value())
  {
    r := new Vec3();
    r.AddVectors(a, b);
    r.DivideScalar(2.0);
  }
}
