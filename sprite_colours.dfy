/**
 * The colour tests of the sprite-sheet pipeline: which pixels count as
 * the green-screen background (#00FF7F with a tolerance of 30, or one of
 * two bright-green variants).
 */
module SpriteColours {
  import opened Raster

  /** The green-screen colour #00FF7F. */
  const BackgroundR: int := 0
  const BackgroundG: int := 255
  const BackgroundB: int := 127
  const Tolerance: int := 30

  /** `abs(v - target) <= tolerance`. */
  predicate Near(v: int, target: int)
  {
    -Tolerance <= v - target <= Tolerance
  }

  /** Within the tolerance of #00FF7F in every channel. */
  predicate NearBackground(p: Pixel)
  {
    Near(p.r, BackgroundR) && Near(p.g, BackgroundG) && Near(p.b, BackgroundB)
  }

  /** Bright green: high green, low red, moderate blue. */
  predicate BrightGreen(p: Pixel)
  {
    p.g > 200 && p.r < 100 && p.b < 180
  }

  /** Green far above both red and blue. */
  predicate GreenDominant(p: Pixel)
  {
    p.g > 180 && p.g > p.r + 60 && p.g > p.b + 40
  }

  /**
   * The background test shared by island counting and content-pixel
   * extraction; it looks at the colour channels only, never at alpha.
   */
  predicate IsBackground(p: Pixel)
  {
    NearBackground(p) || BrightGreen(p) || GreenDominant(p)
  }
}
