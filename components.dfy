/** `SphereOfTear`, the trigger volume that makes the player afraid, and its
    membership test. */
module Components {
  import opened Math

  /** The component's single field (`.0`). It is documented as a radius but
      is compared directly against a SQUARED distance, so the sphere it
      describes has radius `sqrt(bound)`, and a negative bound is empty. */
  datatype SphereOfTear = SphereOfTear(bound: real)

  function Square(t: real): (r: real)
    ensures r >= 0.0
  {
    t * t
  }

  /** `powf(2.0)` of each coordinate difference, summed: never negative,
      and zero from a point to itself. */
  function SquaredDistance(a: Vec3, b: Vec3): (d: real)
    ensures d >= 0.0
    ensures a == b ==> d == 0.0
  {
    Square(a.x - b.x) + Square(a.y - b.y) + Square(a.z - b.z)
  }

  /** `SphereOfTear::point_in_sphere`: inclusive comparison of the squared
      distance with the stored bound. Since the squared distance is never
      negative, no point is inside a sphere with a negative bound, and the
      centre is inside exactly when the bound is not negative. */
  function PointInSphere(s: SphereOfTear, spherePosition: Vec3, point: Vec3): (inside: bool)
    ensures inside ==> s.bound >= 0.0
    ensures spherePosition == point ==> (inside <==> s.bound >= 0.0)
  {
    SquaredDistance(spherePosition, point) <= s.bound
  }

  /** The bound is inclusive: a point whose squared distance equals it is inside. */
  lemma BoundaryIsInside(s: SphereOfTear, c: Vec3, p: Vec3)
    requires SquaredDistance(c, p) == s.bound
    ensures PointInSphere(s, c, p)
  {
  }

  /** Swapping the sphere position and the point gives the same answer. */
  lemma PointInSphereSymmetric(s: SphereOfTear, c: Vec3, p: Vec3)
    ensures PointInSphere(s, c, p) == PointInSphere(s, p, c)
  {
  }

  /** A point inside a sphere stays inside when the bound grows. */
  lemma PointInSphereMonotone(s: SphereOfTear, s': SphereOfTear, c: Vec3, p: Vec3)
    requires s.bound <= s'.bound
    requires PointInSphere(s, c, p)
    ensures PointInSphere(s', c, p)
  {
  }

  /** The stored value is not squared: a point at distance `d` along an axis
      is inside exactly when `d * d <= bound`. */
  lemma AxisPointInside(s: SphereOfTear, c: Vec3, d: real)
    ensures PointInSphere(s, c, Vec3(c.x + d, c.y, c.z)) <==> d * d <= s.bound
  {
    OffsetPointInside(s, c, d, 0.0, 0.0);
  }

  /** Every coordinate counts: a point offset by `(dx, dy, dz)` is inside
      exactly when `dx * dx + dy * dy + dz * dz <= bound`. */
  lemma OffsetPointInside(s: SphereOfTear, c: Vec3, dx: real, dy: real, dz: real)
    ensures PointInSphere(s, c, Vec3(c.x + dx, c.y + dy, c.z + dz)) <==> dx * dx + dy * dy + dz * dz <= s.bound
  {
  }

  /** A sphere storing 4.0 at the origin contains a point at squared distance
      3.0, but not a point at distance 3.0 (squared distance 9.0): the stored
      value behaves as a squared radius. */
  lemma StoredValueIsSquaredRadius()
    ensures PointInSphere(SphereOfTear(4.0), ZERO3, Vec3(1.0, 1.0, 1.0))
    ensures !PointInSphere(SphereOfTear(4.0), ZERO3, Vec3(3.0, 0.0, 0.0))
  {
  }
}
