/** The per-tick pointer step: the plan's displacement is divided by four,
    added to the current pointer position and clamped to the screen. The
    position and the screen size are what the host's pointer library reports. */
module Pointer {
  import opened Wrappers

  datatype Point = Point(x: real, y: real)
  datatype Size = Size(width: real, height: real)

  /** `Math.max(0, Math.min(hi, v))`. */
  function Clamp(v: real, hi: real): (r: real)
    ensures 0.0 <= r
    ensures 0.0 <= hi ==> r <= hi
    ensures 0.0 <= v <= hi ==> r == v
  {
    Max(0.0, Min(hi, v))
  }

  function Abs(x: real): real
  {
    if x < 0.0 then -x else x
  }

  /** The clamp picks the point of [0, hi] nearest to `v`. */
  lemma ClampIsNearest(v: real, hi: real, y: real)
    requires 0.0 <= y <= hi
    ensures Abs(Clamp(v, hi) - v) <= Abs(y - v)
  {
  }

  /** Where the pointer is sent after one tick. */
  function NextPointer(mouse: Point, dx: real, dy: real, screen: Size): (p: Point)
    ensures 0.0 <= p.x && 0.0 <= p.y
    ensures 0.0 <= screen.width ==> p.x <= screen.width
    ensures 0.0 <= screen.height ==> p.y <= screen.height
    ensures 0.0 <= mouse.x + dx / 4.0 <= screen.width ==> p.x == mouse.x + dx / 4.0
    ensures 0.0 <= mouse.y + dy / 4.0 <= screen.height ==> p.y == mouse.y + dy / 4.0
  {
    Point(Clamp(mouse.x + dx / 4.0, screen.width), Clamp(mouse.y + dy / 4.0, screen.height))
  }
}
