/** Three-component vectors over the reals, and the two engine objects the movement code updates
    in place: a cube's transform and the mesh rotated while it rolls or jumps. Single-precision
    floats are modelled as reals: rounding is not modelled. */
module Geometry {

  datatype Vec3 = Vec3(x: real, y: real, z: real)

  const Zero := Vec3(0.0, 0.0, 0.0)

  function Add(a: Vec3, b: Vec3): Vec3 { Vec3(a.x + b.x, a.y + b.y, a.z + b.z) }

  function Sub(a: Vec3, b: Vec3): Vec3 { Vec3(a.x - b.x, a.y - b.y, a.z - b.z) }

  function Scale(v: Vec3, k: real): Vec3 { Vec3(v.x * k, v.y * k, v.z * k) }

  function Neg(v: Vec3): Vec3 { Vec3(-v.x, -v.y, -v.z) }

  function Dot(a: Vec3, b: Vec3): real { a.x * b.x + a.y * b.y + a.z * b.z }

  /** Vector3.SqrMagnitude */
  function SqrMagnitude(v: Vec3): real { Dot(v, v) }

  /** Squared distance between two points, as the overlap tests compute it */
  function SqrDist(a: Vec3, b: Vec3): real { SqrMagnitude(Sub(a, b)) }

  /** Mathf.Abs */
  function Abs(r: real): real { if r < 0.0 then -r else r }

  /** Mathf.Max and Mathf.Min on two floats */
  function Max(a: real, b: real): real { if a < b then b else a }

  function Min(a: real, b: real): real { if a < b then a else b }

  /** The transform of a cube: its world position, its local axes and its uniform scale. */
  class CubeTransform {
    var position: Vec3
    var forward: Vec3
    var right: Vec3
    var up: Vec3
    var scale: real

    constructor (position: Vec3, forward: Vec3, right: Vec3, up: Vec3, scale: real)
      ensures this.position == position && this.forward == forward && this.right == right
      ensures this.up == up && this.scale == scale
    {
      this.position := position;
      this.forward := forward;
      this.right := right;
      this.up := up;
      this.scale := scale;
    }
  }

  /** The visual mesh of a cube. A roll applies one `Rotate(axis, angle)` per physics step, which
      the model records as the list of angles applied (the axes are trigonometric and left out);
      a jump sets the mesh pitch directly. */
  class Mesh {
    var rolls: seq<real>
    var pitch: real

    constructor ()
      ensures rolls == [] && pitch == 0.0
    {
      rolls := [];
      pitch := 0.0;
    }
  }

  /** Scaling twice is scaling by the product. */
  lemma ScaleScale(v: Vec3, a: real, b: real)
    ensures Scale(Scale(v, a), b) == Scale(v, a * b)
  {
    assert v.x * a * b == v.x * (a * b);
    assert v.y * a * b == v.y * (a * b);
    assert v.z * a * b == v.z * (a * b);
  }

  /** Scaling the opposite vector is scaling by the opposite factor, and so is negating. */
  lemma ScaleNeg(v: Vec3, a: real)
    ensures Scale(Neg(v), a) == Scale(v, -a) && Neg(Scale(v, a)) == Scale(v, -a)
  {
  }

  /** Subtracting a scaled vector adds it scaled by the opposite factor. */
  lemma SubScale(v: Vec3, w: Vec3, a: real)
    ensures Sub(v, Scale(w, a)) == Add(v, Scale(w, -a))
  {
  }

  /** Scaling distributes over a sum of factors. */
  lemma ScaleSum(v: Vec3, a: real, b: real)
    ensures Add(Scale(v, a), Scale(v, b)) == Scale(v, a + b)
  {
  }

  /** Scaling a vector by k scales its squared length by k² */
  lemma SqrMagnitudeScale(v: Vec3, k: real)
    ensures SqrMagnitude(Scale(v, k)) == (k * k) * SqrMagnitude(v)
  {
    var kk := k * k;
    assert (v.x * k) * (v.x * k) == kk * (v.x * v.x);
    assert (v.y * k) * (v.y * k) == kk * (v.y * v.y);
    assert (v.z * k) * (v.z * k) == kk * (v.z * v.z);
  }

  /** A dot product with a scaled vector is the scaled dot product. */
  lemma DotScale(a: Vec3, v: Vec3, k: real)
    ensures Dot(a, Scale(v, k)) == k * Dot(a, v)
  {
    assert a.x * (v.x * k) == k * (a.x * v.x);
    assert a.y * (v.y * k) == k * (a.y * v.y);
    assert a.z * (v.z * k) == k * (a.z * v.z);
  }

  /** Sum of a list of angles */
  function Sum(s: seq<real>): real
  {
    if s == [] then 0.0 else Sum(s[..|s| - 1]) + s[|s| - 1]
  }

  /** C#'s cast of a float to int: truncation toward zero */
  function Trunc(x: real): (r: int)
    ensures 0.0 <= x ==> r as real <= x < r as real + 1.0
    ensures x < 0.0 ==> r as real - 1.0 < x <= r as real
  {
    if x >= 0.0 then x.Floor else -((-x).Floor)
  }

  lemma MulMono(x: real, y: real, a: real)
    requires a > 0.0 && x <= y
    ensures x * a <= y * a
  {
  }

  lemma MulStrict(x: real, y: real, a: real)
    requires a > 0.0 && x < y
    ensures x * a < y * a
  {
  }

  lemma DivMono(x: real, y: real, d: real)
    requires d > 0.0 && x <= y
    ensures x / d <= y / d
  {
    var p, q := x / d, y / d;
    assert p * d == x && q * d == y;
    if q < p {
      MulMono(q, p, d);
      assert false;
    }
  }
}
