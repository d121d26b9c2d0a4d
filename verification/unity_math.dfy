/** Exact real-valued counterparts of the engine math helpers the scripts use:
    3-vectors, dot and cross products, and Unity's clamping and interpolation
    rules. Floating-point rounding is not modelled. */
module UnityMath {

  /** A 3-vector (Unity's Vector3) over exact reals. */
  datatype Vec3 = Vec3(x: real, y: real, z: real)

  /** Vector3.zero, also the value every slot of a fresh Vector3 array holds. */
  const Origin: Vec3 := Vec3(0.0, 0.0, 0.0)
  const Back: Vec3 := Vec3(0.0, 0.0, -1.0)
  const Right: Vec3 := Vec3(1.0, 0.0, 0.0)

  function Add(a: Vec3, b: Vec3): (v: Vec3) {
    Vec3(a.x + b.x, a.y + b.y, a.z + b.z)
  }

  function Sub(a: Vec3, b: Vec3): (v: Vec3) {
    Vec3(a.x - b.x, a.y - b.y, a.z - b.z)
  }

  function Dot(a: Vec3, b: Vec3): (r: real) {
    a.x * b.x + a.y * b.y + a.z * b.z
  }

  function Cross(a: Vec3, b: Vec3): (v: Vec3) {
    Vec3(a.y * b.z - a.z * b.y, a.z * b.x - a.x * b.z, a.x * b.y - a.y * b.x)
  }

  function Abs(x: real): (r: real)
    ensures r >= 0.0
    ensures r == x || r == -x
  {
    if x < 0.0 then -x else x
  }

  function Max(a: real, b: real): (r: real)
    ensures r >= a && r >= b
    ensures r == a || r == b
  {
    if b > a then b else a
  }

  /** Mathf.Clamp: the lower bound is tested first, so when lo > hi the
      result is lo for values below lo and hi otherwise. */
  function Clamp(v: real, lo: real, hi: real): (r: real)
    ensures lo <= hi ==> lo <= r <= hi
    ensures lo <= v <= hi ==> r == v
    ensures r == v || r == lo || r == hi
    ensures v < lo ==> r == lo
    ensures lo <= v && v > hi ==> r == hi
  {
    if v < lo then lo else if v > hi then hi else v
  }

  /** Mathf.Clamp01. */
  function Clamp01(t: real): (r: real)
    ensures 0.0 <= r <= 1.0
    ensures t <= 0.0 ==> r == 0.0
    ensures t >= 1.0 ==> r == 1.0
    ensures 0.0 <= t <= 1.0 ==> r == t
  {
    Clamp(t, 0.0, 1.0)
  }

  /** Mathf.Lerp, whose interpolation parameter is clamped to [0, 1]. */
  function Lerp(a: real, b: real, t: real): (r: real)
    ensures t <= 0.0 ==> r == a
    ensures t >= 1.0 ==> r == b
    ensures a <= b ==> a <= r <= b
    ensures b <= a ==> b <= r <= a
  {
    var s := Clamp01(t);
    ScaleByFraction(b - a, s);
    a + (b - a) * s
  }

  /** Vector3.Lerp, which clamps its parameter the same way, component by component. */
  function LerpVec(a: Vec3, b: Vec3, t: real): (v: Vec3) {
    Vec3(Lerp(a.x, b.x, t), Lerp(a.y, b.y, t), Lerp(a.z, b.z, t))
  }

  /** The magnitude of a vector that lies on the y axis, where the square root
      of its squared length is exactly |y|. */
  function AxisMagnitude(v: Vec3): (m: real)
    requires v.x == 0.0 && v.z == 0.0
    ensures m >= 0.0 && (m == v.y || m == -v.y)
  {
    Abs(v.y)
  }

  /** AxisMagnitude is the Euclidean length: its square is the vector's dot
      product with itself. */
  lemma AxisMagnitudeIsLength(v: Vec3)
    requires v.x == 0.0 && v.z == 0.0
    ensures AxisMagnitude(v) * AxisMagnitude(v) == Dot(v, v)
  {
  }

  /** Lerp is monotone in its parameter when a <= b. */
  lemma LerpMonotone(a: real, b: real, t1: real, t2: real)
    requires a <= b && t1 <= t2
    ensures Lerp(a, b, t1) <= Lerp(a, b, t2)
  {
    var s1, s2 := Clamp01(t1), Clamp01(t2);
    ScaleByFraction(b - a, s2 - s1);
    assert (b - a) * s2 - (b - a) * s1 == (b - a) * (s2 - s1);
  }

  /** Lerp is monotone in both end points: raising either end point never
      lowers the interpolated value. */
  lemma LerpEndpointsMonotone(a1: real, b1: real, a2: real, b2: real, t: real)
    requires a1 <= a2 && b1 <= b2
    ensures Lerp(a1, b1, t) <= Lerp(a2, b2, t)
  {
    var s := Clamp01(t);
    ScaleByFraction(a2 - a1, s);
    ScaleByFraction(b2 - b1, s);
    assert Lerp(a1, b1, t) == a1 + (b1 - a1) * s;
    assert Lerp(a2, b2, t) == a2 + (b2 - a2) * s;
    assert (b2 - a2) * s - (b1 - a1) * s == (b2 - b1) * s - (a2 - a1) * s;
  }

  /** Mathf.Clamp is monotone in the clamped value. */
  lemma ClampMonotone(v1: real, v2: real, lo: real, hi: real)
    requires v1 <= v2 && lo <= hi
    ensures Clamp(v1, lo, hi) <= Clamp(v2, lo, hi)
  {
  }

  /** Scaling by a fraction in [0, 1] keeps a value between 0 and itself. */
  lemma ScaleByFraction(d: real, s: real)
    requires 0.0 <= s <= 1.0
    ensures d >= 0.0 ==> 0.0 <= d * s <= d
    ensures d <= 0.0 ==> d <= d * s <= 0.0
  {
    if d >= 0.0 {
      assert d * s <= d * 1.0;
    } else {
      assert d * s >= d * 1.0;
    }
  }
}
