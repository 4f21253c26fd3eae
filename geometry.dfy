/** The Compose geometry values the map works with: `Offset` (a point or vector in
    pixels), `IntSize` (a layout size) and `Size` (an image's intrinsic size).
    `Float` coordinates are modelled as `real`. */
module Geometry {

  /** A length that cannot be negative: layout and intrinsic sizes never are. */
  type Extent = r: real | 0.0 <= r

  datatype Offset = Offset(x: real, y: real) {

    function Plus(o: Offset): Offset {
      Offset(x + o.x, y + o.y)
    }

    function Minus(o: Offset): Offset {
      Offset(x - o.x, y - o.y)
    }

    /** `Offset * Float`. */
    function Times(k: real): Offset {
      Offset(x * k, y * k)
    }

    /** `Offset / Float`. */
    function Div(k: real): Offset
      requires k != 0.0
    {
      Offset(x / k, y / k)
    }
  }

  /** `Offset.Zero`. */
  const Zero := Offset(0.0, 0.0)

  /** `IntSize`: a container measured by layout, in whole pixels. */
  datatype IntSize = IntSize(width: nat, height: nat)

  /** `Size`: the intrinsic size of the map image. */
  datatype Size = Size(width: Extent, height: Extent)

  const IntSizeZero := IntSize(0, 0)
  const SizeZero := Size(0.0, 0.0)
}
