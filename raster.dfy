/**
 * Raster images as the image tools see them once a file is decoded:
 * `height` rows of `width` RGBA pixels (an RGB image has alpha 255).
 */
module Raster {
  datatype Pixel = Pixel(r: int, g: int, b: int, a: int)

  /** `(0, 0, 0, 0)`: the fully transparent pixel the tools write. */
  const Transparent: Pixel := Pixel(0, 0, 0, 0)

  /** A pixel position `(x, y)`: column, then row. */
  type Cell = (int, int)

  datatype Image = Image(width: nat, height: nat, rows: seq<seq<Pixel>>)

  predicate WellFormed(img: Image)
  {
    |img.rows| == img.height && forall y :: 0 <= y < img.height ==> |img.rows[y]| == img.width
  }

  /** The pixel in column `x` of row `y`. */
  function At(img: Image, x: nat, y: nat): Pixel
    requires WellFormed(img) && x < img.width && y < img.height
  {
    img.rows[y][x]
  }
}
