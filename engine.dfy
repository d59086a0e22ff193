/** Values the bridge shares with the host engine: optional values, bytes,
    the float-to-int conversion the C++ code performs implicitly, and the
    host viewport. */
module Engine {

  datatype Option<+T> = None | Some(value: T)

  /** An unsigned 8-bit value (a colour channel, a buffer byte). */
  type Byte = x: int | 0 <= x < 256

  /** The host renderer's viewport size, as GetViewport reports it. */
  datatype Viewport = Viewport(width: int, height: int)
  {
    predicate Usable() { width > 0 && height > 0 }
  }

  function Abs(r: real): (a: real)
    ensures a >= 0.0 && (a == r || a == -r)
  {
    if r < 0.0 then -r else r
  }

  /** C++ float-to-int conversion: rounds toward zero. */
  function Trunc(r: real): (n: int)
    ensures r >= 0.0 ==> n as real <= r < n as real + 1.0
    ensures r < 0.0 ==> n as real - 1.0 < r <= n as real
  {
    if r >= 0.0 then r.Floor else -((-r).Floor)
  }

  /** min and max as CryENGINE's min/max templates (ties take either: same value). */
  function Min(a: int, b: int): (m: int)
    ensures m <= a && m <= b && (m == a || m == b)
  {
    if a < b then a else b
  }

  function Max(a: int, b: int): (m: int)
    ensures m >= a && m >= b && (m == a || m == b)
  {
    if a > b then a else b
  }
}
