/** Three-component vectors as the glMatrix `vec3` helpers use them, and the
    flat `[x0, y0, z0, x1, y1, z1, ...]` buffers the meshes store them in. */
module Geometry {

  datatype Vec3 = Vec3(x: real, y: real, z: real)

  const Zero: Vec3 := Vec3(0.0, 0.0, 0.0)

  /** Component `i` of `a`, as `a[i]` reads a `vec3`. */
  function Get(a: Vec3, i: nat): real
    requires i < 3
  {
    if i == 0 then a.x else if i == 1 then a.y else a.z
  }

  /** `a` with component `i` replaced by `c`, as `a[i] = c` writes a `vec3`. */
  function With(a: Vec3, i: nat, c: real): (r: Vec3)
    requires i < 3
    ensures forall k :: 0 <= k < 3 ==> Get(r, k) == if k == i then c else Get(a, k)
  {
    if i == 0 then Vec3(c, a.y, a.z) else if i == 1 then Vec3(a.x, c, a.z) else Vec3(a.x, a.y, c)
  }

  function Add(a: Vec3, b: Vec3): Vec3 {
    Vec3(a.x + b.x, a.y + b.y, a.z + b.z)
  }

  function Sub(a: Vec3, b: Vec3): Vec3 {
    Vec3(a.x - b.x, a.y - b.y, a.z - b.z)
  }

  function Scale(a: Vec3, s: real): Vec3 {
    Vec3(a.x * s, a.y * s, a.z * s)
  }

  function Dot(a: Vec3, b: Vec3): real {
    a.x * b.x + a.y * b.y + a.z * b.z
  }

  /** Squared length; the argument glMatrix takes the square root of. */
  function Len2(a: Vec3): real {
    Dot(a, a)
  }

  /** `vec3.cross`: the right-handed cross product. */
  function Cross(a: Vec3, b: Vec3): Vec3 {
    Vec3(a.y * b.z - a.z * b.y, a.z * b.x - a.x * b.z, a.x * b.y - a.y * b.x)
  }

  /** The cross product is perpendicular to both factors. */
  lemma CrossIsPerpendicular(a: Vec3, b: Vec3)
    ensures Dot(Cross(a, b), a) == 0.0 && Dot(Cross(a, b), b) == 0.0
  {
  }

  /** `invSqrt` is one over the square root at `l`. The square root is not
      computed in this model; callers supply it as a function. */
  ghost predicate IsInvSqrtAt(invSqrt: real -> real, l: real) {
    invSqrt(l) > 0.0 && invSqrt(l) * invSqrt(l) * l == 1.0
  }

  /** `vec3.normalize`: scale by one over the length when the squared length
      is positive; a zero vector stays zero. */
  function Normalize(a: Vec3, invSqrt: real -> real): (r: Vec3)
    ensures a == Zero ==> r == Zero
  {
    var l := Len2(a);
    if l > 0.0 then Scale(a, invSqrt(l)) else Zero
  }

  lemma ScaleLen2(a: Vec3, s: real)
    ensures Len2(Scale(a, s)) == s * s * Len2(a)
  {
    calc {
      Len2(Scale(a, s));
      (a.x * s) * (a.x * s) + (a.y * s) * (a.y * s) + (a.z * s) * (a.z * s);
      s * s * (a.x * a.x) + s * s * (a.y * a.y) + s * s * (a.z * a.z);
      s * s * Len2(a);
    }
  }

  /** A vector of positive length normalises to a vector of unit length. */
  lemma NormalizeIsUnit(a: Vec3, invSqrt: real -> real)
    requires Len2(a) > 0.0
    requires IsInvSqrtAt(invSqrt, Len2(a))
    ensures Len2(Normalize(a, invSqrt)) == 1.0
  {
    ScaleLen2(a, invSqrt(Len2(a)));
  }

  /** Normalising a unit vector gives it back (when the inverse square root
      of 1 is 1). */
  lemma NormalizeUnitIsIdentity(a: Vec3, invSqrt: real -> real)
    requires Len2(a) == 1.0 && invSqrt(1.0) == 1.0
    ensures Normalize(a, invSqrt) == a
  {
  }

  // ---------------------------------------------------------------------
  // Flat buffers of triples

  /** Vertex `k` occupies entries `3k`, `3k+1`, `3k+2` of a flat buffer. */
  ghost predicate HasVertex(buf: seq<real>, k: int) {
    0 <= k && 3 * k + 2 < |buf|
  }

  function VecAt(buf: seq<real>, k: int): Vec3
    requires HasVertex(buf, k)
  {
    Vec3(buf[3 * k], buf[3 * k + 1], buf[3 * k + 2])
  }

  /** Overwrite the triple of vertex `k`, as `setVertex` and the
      destructuring writes of the terrain code do. */
  function WithVec(buf: seq<real>, k: int, v: Vec3): (r: seq<real>)
    requires HasVertex(buf, k)
    ensures |r| == |buf|
    ensures VecAt(r, k) == v
  {
    buf[3 * k := v.x][3 * k + 1 := v.y][3 * k + 2 := v.z]
  }

  /** Overwriting vertex `k` leaves every other vertex as it was. */
  lemma WithVecAt(buf: seq<real>, k: int, v: Vec3, m: int)
    requires HasVertex(buf, k) && HasVertex(buf, m)
    ensures VecAt(WithVec(buf, k, v), m) == if m == k then v else VecAt(buf, m)
  {
  }

  /** A buffer of `3k` entries holds exactly `k` triples. */
  lemma Triples(n: nat, k: nat)
    requires n == 3 * k
    ensures n % 3 == 0 && n / 3 == k
  {
  }

  lemma VecAtPrefix(a: seq<real>, b: seq<real>, k: int)
    requires HasVertex(a, k)
    ensures HasVertex(a + b, k) && VecAt(a + b, k) == VecAt(a, k)
  {
  }

  lemma VecAtSuffix(a: seq<real>, b: seq<real>, m: nat, k: int)
    requires |a| == 3 * m && HasVertex(b, k)
    ensures HasVertex(a + b, m + k) && VecAt(a + b, m + k) == VecAt(b, k)
  {
  }

  lemma AppendAssoc<T>(a: seq<T>, b: seq<T>, c: seq<T>)
    ensures (a + b) + c == a + (b + c)
  {
  }

  function Zeros(n: nat): (r: seq<real>)
    ensures |r| == n && forall k :: 0 <= k < n ==> r[k] == 0.0
  {
    seq(n, _ => 0.0)
  }

  lemma ZerosConcat(a: nat, b: nat)
    ensures Zeros(a) + Zeros(b) == Zeros(a + b)
  {
  }
}
