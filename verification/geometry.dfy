/** Value types shared by the drawing code: fixed-width integers, the
    three- and four-component float vectors (modelled on reals), and the
    saturating float-to-byte cast that both renderers and the sink use. */
module Geometry {

  /** Rust `u8`. */
  newtype uint8 = x: int | 0 <= x < 0x100

  /** Rust `u16`. */
  newtype uint16 = x: int | 0 <= x < 0x1_0000

  datatype Option<T> = None | Some(value: T)

  /** A 3D position or direction (glam `Vec3`). */
  datatype Vec3 = Vec3(x: real, y: real, z: real) {
    /** Component `i` (glam's `v[i]` indexing). */
    function At(i: nat): real
      requires i < 3
    {
      if i == 0 then x else if i == 1 then y else z
    }
  }

  /** An RGBA colour with float channels (glam `Vec4`). */
  datatype Vec4 = Vec4(x: real, y: real, z: real, w: real)

  function Abs(r: real): real {
    if r < 0.0 then -r else r
  }

  /** Rust's `r as u8` on a float: truncation toward zero, saturating at
      both ends. The result is the largest byte not above `max(r, 0)`. */
  function SaturatingToUint8(r: real): (b: uint8)
    ensures b as real <= r || (r < 0.0 && b == 0)
    ensures r < 255.0 ==> r < b as real + 1.0
    ensures r >= 255.0 ==> b == 255
  {
    if r <= 0.0 then 0
    else if r >= 255.0 then 255
    else r.Floor as uint8
  }
}
