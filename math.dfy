/** The engine's vector types (`Vec2`, `Vec3`) and `f32::clamp`, with `f32`
    modelled as `real` (no rounding). */
module Math {

  datatype Vec2 = Vec2(x: real, y: real)

  datatype Vec3 = Vec3(x: real, y: real, z: real)

  const ZERO2: Vec2 := Vec2(0.0, 0.0)
  const ZERO3: Vec3 := Vec3(0.0, 0.0, 0.0)

  function Add(a: Vec3, b: Vec3): Vec3 {
    Vec3(a.x + b.x, a.y + b.y, a.z + b.z)
  }

  function Scale(a: Vec3, k: real): Vec3 {
    Vec3(a.x * k, a.y * k, a.z * k)
  }

  function Scale2(a: Vec2, k: real): Vec2 {
    Vec2(a.x * k, a.y * k)
  }

  function Abs(x: real): real {
    if x < 0.0 then -x else x
  }

  /** `f32::clamp(lo, hi)`; the library panics when `lo > hi`, hence the
      precondition. The result lies in the band and equals `v` when `v`
      already does. */
  function Clamp(v: real, lo: real, hi: real): (r: real)
    requires lo <= hi
    ensures lo <= r <= hi
    ensures lo <= v <= hi ==> r == v
  {
    if v < lo then lo else if v > hi then hi else v
  }

  /** An independent description of clamping: no point of the band is
      closer to `v` than the clamped value. */
  lemma ClampIsNearest(v: real, lo: real, hi: real, w: real)
    requires lo <= hi
    requires lo <= w <= hi
    ensures Abs(Clamp(v, lo, hi) - v) <= Abs(w - v)
  {
  }

  /** Clamping preserves order. */
  lemma ClampMonotone(v1: real, v2: real, lo: real, hi: real)
    requires lo <= hi
    requires v1 <= v2
    ensures Clamp(v1, lo, hi) <= Clamp(v2, lo, hi)
  {
  }

  /** Clamping twice is clamping once. */
  lemma ClampIdempotent(v: real, lo: real, hi: real)
    requires lo <= hi
    ensures Clamp(Clamp(v, lo, hi), lo, hi) == Clamp(v, lo, hi)
  {
  }
}
