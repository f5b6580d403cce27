/**
 * The tileset padding tool: an image whose width or height is not a
 * multiple of the 16-pixel tile size is enlarged to the next multiple,
 * with the original at the top-left corner and the new area transparent.
 * Reading, converting and saving the files are not part of this model.
 */
module PadTilesets {
  import opened Wrappers
  import opened Raster

  const Tile: nat := 16

  /** `((n + 15) // 16) * 16`: the smallest multiple of 16 that is at least `n`. */
  function RoundUp(n: nat): nat
  {
    ((n + Tile - 1) / Tile) * Tile
  }

  /** The rounded dimension is a multiple of 16, at least the original, and less than 16 above it. */
  lemma RoundUpBounds(n: nat)
    ensures RoundUp(n) % Tile == 0
    ensures n <= RoundUp(n) < n + Tile
    ensures n % Tile == 0 ==> RoundUp(n) == n
  {
    var q := n / Tile;
    var rem := n % Tile;
    assert n == q * Tile + rem;
    if rem == 0 {
      assert (n + Tile - 1) / Tile == q;
    } else {
      assert (n + Tile - 1) / Tile == q + 1;
    }
  }

  /** Rounding up yields the least multiple of 16 not below `n`. */
  lemma RoundUpLeast(n: nat, m: nat)
    requires m % Tile == 0 && n <= m
    ensures RoundUp(n) <= m
  {
    RoundUpBounds(n);
    var k := m / Tile;
    assert m == k * Tile;
    var q := RoundUp(n) / Tile;
    assert RoundUp(n) == q * Tile;
  }

  /** Rounding up twice changes nothing more. */
  lemma RoundUpIdempotent(n: nat)
    ensures RoundUp(RoundUp(n)) == RoundUp(n)
  {
    RoundUpBounds(n);
    RoundUpBounds(RoundUp(n));
  }

  /** The pixel at (x, y) of the padded image: the original inside it, transparent outside. */
  function PaddedPixel(img: Image, x: nat, y: nat): Pixel
    requires WellFormed(img)
  {
    if y < img.height && x < img.width then img.rows[y][x] else Transparent
  }

  /**
   * `pad_image_to_multiple_of_16`: `None` when both dimensions are
   * already multiples of 16 (nothing is written); otherwise the new image.
   */
  function PadImage(img: Image): (r: Option<Image>)
    requires WellFormed(img)
    ensures r.Some? ==> WellFormed(r.value)
  {
    var w := RoundUp(img.width);
    var h := RoundUp(img.height);
    if img.width == w && img.height == h then None
    else Some(Image(w, h, seq(h, y requires 0 <= y < h => seq(w, x requires 0 <= x < w => PaddedPixel(img, x, y)))))
  }

  /**
   * Padding writes nothing exactly when both dimensions are multiples of
   * 16; otherwise both new dimensions are multiples of 16 at most 15 pixels
   * larger, the original pixels sit at offset (0, 0), and every added
   * pixel is transparent.
   */
  lemma PadImageProperties(img: Image)
    requires WellFormed(img)
    ensures PadImage(img).None? <==> img.width % Tile == 0 && img.height % Tile == 0
    ensures PadImage(img).Some? ==>
              var p := PadImage(img).value;
              p.width % Tile == 0 && p.height % Tile == 0
              && img.width <= p.width < img.width + Tile && img.height <= p.height < img.height + Tile
              && (forall y, x :: 0 <= y < img.height && 0 <= x < img.width ==> p.rows[y][x] == img.rows[y][x])
              && (forall y, x :: 0 <= y < p.height && 0 <= x < p.width && (y >= img.height || x >= img.width) ==>
                    p.rows[y][x] == Transparent)
  {
    RoundUpBounds(img.width);
    RoundUpBounds(img.height);
  }

  /** Padding a padded image writes nothing: the tool is idempotent. */
  lemma PadIdempotent(img: Image)
    requires WellFormed(img)
    ensures PadImage(img).Some? ==> PadImage(PadImage(img).value).None?
  {
    RoundUpIdempotent(img.width);
    RoundUpIdempotent(img.height);
  }
}
