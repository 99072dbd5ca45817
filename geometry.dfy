/**
  Where the logo goes on a QR image (generate.py:194-197): a square whose
  side is a quarter of the image's smaller dimension, centred. Python's `//`
  floors; on the non-negative operands here it agrees with Dafny's `/`.
 */
module Geometry {

  /** The size of a rendered image, in pixels. */
  datatype Size = Size(width: nat, height: nat)

  /** A square of side `side` whose top-left corner is at `(x, y)`. */
  datatype Placement = Placement(side: nat, x: nat, y: nat)

  function Min(a: nat, b: nat): (m: nat)
    ensures m <= a && m <= b && (m == a || m == b)
  {
    if a <= b then a else b
  }

  /** `min(qr_width, qr_height) // 4`: the largest side that fits four times
      into both dimensions. */
  function LogoSide(size: Size): (s: nat)
    ensures 4 * s <= size.width && 4 * s <= size.height
    ensures size.width < 4 * (s + 1) || size.height < 4 * (s + 1)
  {
    Min(size.width, size.height) / 4
  }

  /** The logo square and the paste position
      `((qr_width - logo_size) // 2, (qr_height - logo_size) // 2)`: wholly
      inside the image, with left and right margins (and top and bottom
      margins) equal or the right (bottom) one larger by one pixel. */
  function LogoPlacement(size: Size): (p: Placement)
    ensures p.side == LogoSide(size)
    ensures p.x + p.side <= size.width && p.y + p.side <= size.height
    ensures 0 <= (size.width - p.x - p.side) - p.x <= 1
    ensures 0 <= (size.height - p.y - p.side) - p.y <= 1
  {
    var s := LogoSide(size);
    Placement(s, (size.width - s) / 2, (size.height - s) / 2)
  }
}
