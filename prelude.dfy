/** The engine values the scene code works with: 3-vectors, sRGB colours,
    the f32 constant FRAC_PI_2 and the usual Option/Result wrappers.
    Single-precision floats are modelled as exact reals. */
module Prelude {

  datatype Option<+T> = None | Some(value: T)

  datatype Result<+T, +E> = Success(value: T) | Failure(error: E)

  /** FRAC_PI_2 as the f32 the source uses: 13176795 / 2^23. */
  const FracPi2: real := 1.57079637050628662109375

  /** A Vec3 with its component-wise arithmetic. */
  datatype Vec3 = Vec3(x: real, y: real, z: real) {

    function Add(o: Vec3): Vec3 {
      Vec3(x + o.x, y + o.y, z + o.z)
    }

    function Scale(k: real): Vec3 {
      Vec3(k * x, k * y, k * z)
    }

    function Neg(): Vec3 {
      Vec3(-x, -y, -z)
    }

    /** Vec3::clamp: `self.max(min).min(max)` on each component; no check
        that min <= max is made (the debug assertion is off by default). */
    function Clamp(lo: Vec3, hi: Vec3): (r: Vec3)
      ensures r.x <= hi.x && r.y <= hi.y && r.z <= hi.z
      ensures lo.x <= hi.x ==> lo.x <= r.x
      ensures lo.y <= hi.y ==> lo.y <= r.y
      ensures lo.z <= hi.z ==> lo.z <= r.z
      ensures lo.x <= x <= hi.x ==> r.x == x
      ensures lo.y <= y <= hi.y ==> r.y == y
      ensures lo.z <= z <= hi.z ==> r.z == z
      ensures hi.x < x ==> r.x == hi.x
      ensures hi.y < y ==> r.y == hi.y
      ensures hi.z < z ==> r.z == hi.z
      ensures x < lo.x <= hi.x ==> r.x == lo.x
      ensures y < lo.y <= hi.y ==> r.y == lo.y
      ensures z < lo.z <= hi.z ==> r.z == lo.z
    {
      Vec3(Min(Max(x, lo.x), hi.x), Min(Max(y, lo.y), hi.y), Min(Max(z, lo.z), hi.z))
    }
  }

  const Zero: Vec3 := Vec3(0.0, 0.0, 0.0)

  function Min(a: real, b: real): real {
    if a <= b then a else b
  }

  function Max(a: real, b: real): real {
    if a >= b then a else b
  }

  /** f32::clamp: `min` when below it, `max` when above it, otherwise the
      value itself. Rust asserts `min <= max`, so callers must ensure it. */
  function ClampF32(v: real, lo: real, hi: real): (r: real)
    requires lo <= hi
    ensures lo <= r <= hi
    ensures lo <= v <= hi ==> r == v
    ensures v < lo ==> r == lo
    ensures hi < v ==> r == hi
  {
    if v < lo then lo else if v > hi then hi else v
  }

  /** An sRGB colour with 8-bit channels (Color::srgb_u8). */
  datatype Color = Srgb8(r: nat, g: nat, b: nat)

  const Black: Color := Srgb8(0, 0, 0)
  const Red: Color := Srgb8(255, 0, 0)
  const Blue: Color := Srgb8(0, 0, 255)
}
