/** Shared value types: optional and fallible results, 2D vectors on f32 (modelled as real),
    RGBA colours and the saturating float-to-integer casts Rust's `as` performs. */
module Base {
  datatype Option<T> = None | Some(value: T)

  datatype Result<T, E> = Ok(value: T) | Err(error: E)

  /** Rust's `u8`, `u16` and `u32`. */
  type Byte = n: nat | n < 0x100
  type U16 = n: nat | n < 0x1_0000
  type U32 = n: nat | n < 0x1_0000_0000

  /** cgmath `Point2<f32>` / `Vector2<f32>` and `[f32; 2]`. */
  datatype Vec2 = Vec2(x: real, y: real)
  {
    function Plus(o: Vec2): Vec2 { Vec2(x + o.x, y + o.y) }
    function Minus(o: Vec2): Vec2 { Vec2(x - o.x, y - o.y) }
  }

  /** `[f32; 4]` colour, red/green/blue/alpha. */
  datatype Color = Color(r: real, g: real, b: real, a: real)
  {
    function Components(): (cs: seq<real>)
      ensures |cs| == 4 && cs[0] == r && cs[3] == a
    {
      [r, g, b, a]
    }
  }

  const U16_LIMIT: nat := 0x1_0000
  const U32_MAX: nat := 0xFFFF_FFFF

  /** Rust `x as u32` for a finite f32: truncation toward zero, saturating at both ends. */
  function CastU32(x: real): (r: nat)
    ensures r <= U32_MAX
    ensures x <= 0.0 ==> r == 0
    ensures 0.0 <= x < U32_MAX as real ==> r as real <= x < r as real + 1.0
    ensures x >= U32_MAX as real ==> r == U32_MAX
  {
    if x <= 0.0 then 0
    else if x >= U32_MAX as real then U32_MAX
    else x.Floor
  }

  /** Rust `n as u16` for an integer: keeps the low 16 bits. */
  function TruncU16(n: nat): (r: nat)
    ensures r < U16_LIMIT
    ensures n < U16_LIMIT ==> r == n
  {
    n % U16_LIMIT
  }

  /** Rust `n as u32` for an integer: keeps the low 32 bits. */
  function TruncU32(n: nat): (r: nat)
    ensures r <= U32_MAX
    ensures n <= U32_MAX ==> r == n
  {
    n % (U32_MAX + 1)
  }

  /** What a call that may hit a `todo!()` or `unwrap()` does: return a value, or panic. */
  datatype Outcome<T> = Returned(value: T) | Panicked

  function Min(a: int, b: int): int { if a <= b then a else b }
  function Max(a: int, b: int): int { if a >= b then a else b }
}
