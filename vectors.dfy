// Vectors, quaternions and the numeric primitives the library takes from
// its maths dependencies. Arithmetic is exact (real); square root, sine,
// cosine, the fifth root and the quaternion product are parameters with
// only the algebraic laws the proofs need.
module Vectors {

  /** A 3-vector of doubles (vec3d). */
  datatype Vec3 = Vec3(x: real, y: real, z: real)
  {
    function Add(o: Vec3): Vec3 { Vec3(x + o.x, y + o.y, z + o.z) }
    function Sub(o: Vec3): Vec3 { Vec3(x - o.x, y - o.y, z - o.z) }
    function Scale(k: real): Vec3 { Vec3(x * k, y * k, z * k) }
    function Dot(o: Vec3): real { x * o.x + y * o.y + z * o.z }
    function Cross(o: Vec3): Vec3
    {
      Vec3(y * o.z - z * o.y, z * o.x - x * o.z, x * o.y - y * o.x)
    }
    /** Division of every component by a scalar (vec3 / double). */
    function DivScalar(k: real): Vec3
      requires k != 0.0
    {
      Vec3(x / k, y / k, z / k)
    }
    /** Componentwise product (vec3 * vec3). */
    function MulElem(o: Vec3): Vec3 { Vec3(x * o.x, y * o.y, z * o.z) }
    /** Componentwise quotient (vec3 / vec3). */
    function DivElem(o: Vec3): Vec3
      requires o.x != 0.0 && o.y != 0.0 && o.z != 0.0
    {
      Vec3(x / o.x, y / o.y, z / o.z)
    }
  }

  const Zero3: Vec3 := Vec3(0.0, 0.0, 0.0)

  /** A quaternion (x, y, z, w) with vector part (x, y, z) and scalar part w. */
  datatype Quat = Quat(x: real, y: real, z: real, w: real)
  {
    function VecPart(): Vec3 { Vec3(x, y, z) }
    function Norm2(): real { x * x + y * y + z * z + w * w }
  }

  const QuatZero: Quat := Quat(0.0, 0.0, 0.0, 0.0)
  const QuatOne: Quat := Quat(0.0, 0.0, 0.0, 1.0)

  /** The quaternion (v, s). */
  function FromParts(v: Vec3, s: real): (q: Quat)
    ensures q.VecPart() == v && q.w == s
  {
    Quat(v.x, v.y, v.z, s)
  }

  /** Square root, sine, cosine and the fifth root (pow(x, 1/5)). */
  datatype Math = Math(sqrt: real -> real, sin: real -> real, cos: real -> real, root5: real -> real)

  function Pow5(x: real): real { x * x * x * x * x }

  ghost predicate Lawful(m: Math)
  {
    && (forall x: real :: 0.0 <= x ==> 0.0 <= m.sqrt(x) && m.sqrt(x) * m.sqrt(x) == x)
    && (forall x: real :: m.sin(x) * m.sin(x) + m.cos(x) * m.cos(x) == 1.0)
    && m.sqrt(0.0) == 0.0
    && m.cos(0.0) == 1.0
    && (forall x: real :: 0.0 <= x ==> 0.0 <= m.root5(x) && Pow5(m.root5(x)) == x)
    && m.root5(0.0) == 0.0
  }

  /** Euclidean length of a vector (v.length()). */
  function Length(m: Math, v: Vec3): real
  {
    m.sqrt(v.Dot(v))
  }

  /** Quaternion product and inverse of the vector library. */
  datatype QuatAlgebra = QuatAlgebra(mul: (Quat, Quat) -> Quat, inverse: Quat -> Quat)

  ghost predicate LawfulQuat(qa: QuatAlgebra)
  {
    && (forall p: Quat, q: Quat :: qa.mul(p, q).Norm2() == p.Norm2() * q.Norm2())
    && (forall p: Quat :: qa.mul(p, QuatZero) == QuatZero && qa.mul(QuatZero, p) == QuatZero)
    && (forall p: Quat :: qa.mul(QuatOne, p) == p)
  }

  lemma DotScale(v: Vec3, k: real)
    ensures v.Scale(k).Dot(v.Scale(k)) == k * k * v.Dot(v)
  {
  }

  lemma DotSelfNonNegative(v: Vec3)
    ensures v.Dot(v) >= 0.0
  {
  }

  /** With lawful maths every length is non-negative and the zero vector has length zero. */
  lemma LengthFacts(m: Math, v: Vec3)
    requires Lawful(m)
    ensures Length(m, v) >= 0.0
    ensures Length(m, v) * Length(m, v) == v.Dot(v)
    ensures v == Zero3 ==> Length(m, v) == 0.0
  {
    DotSelfNonNegative(v);
  }
}
