/**
 * The two pixel passes of `remove_background`, which work in place on the
 * image: the first clears every opaque pixel that is background or one
 * of two more green tints; the second clears interior green-fringe pixels
 * with at least three transparent neighbours, reading the removals it has
 * already made.
 */
module SpriteRemoval {
  import opened Raster
  import opened SpriteColours

  /** Cyan-green tint: high green and blue, very low red. */
  predicate CyanGreen(p: Pixel)
  {
    p.g > 180 && p.b > 100 && p.r < 60
  }

  /** Lime or spring green: very high green, low red. */
  predicate LimeGreen(p: Pixel)
  {
    p.g > 220 && p.r < 120
  }

  /** The first pass's removal test: the background test plus two more green tints. */
  predicate Removable(p: Pixel)
  {
    IsBackground(p) || CyanGreen(p) || LimeGreen(p)
  }

  /** The first pass on one pixel: transparent pixels are skipped, removable ones cleared. */
  function FirstPass(p: Pixel): Pixel
  {
    if p.a == 0 then p else if Removable(p) then Transparent else p
  }

  /**
   * The first pass clears every opaque background pixel, keeps every
   * other pixel, and only ever writes the transparent pixel.
   */
  lemma FirstPassProperties(p: Pixel)
    ensures p.a != 0 && IsBackground(p) ==> FirstPass(p) == Transparent
    ensures FirstPass(p) == p || (FirstPass(p) == Transparent && p.a != 0 && Removable(p))
    ensures p.a == 0 || !Removable(p) ==> FirstPass(p) == p
    ensures FirstPass(FirstPass(p)) == FirstPass(p)
  {
  }

  /**
   * The first pass removes strictly more than the background test: a
   * cyan-green pixel is cleared although the island count and the content
   * pixels treat it as part of a sprite.
   */
  lemma FirstPassRemovesMoreThanBackground()
    ensures var p := Pixel(50, 190, 200, 255); !IsBackground(p) && FirstPass(p) == Transparent
  {
  }

  /** A pixel grid `g[y][x]` of `h` rows of `w` pixels. */
  type Grid = seq<seq<Pixel>>

  predicate Shaped(g: Grid, h: nat, w: nat)
  {
    |g| == h && forall y :: 0 <= y < h ==> |g[y]| == w
  }

  /** Two grids of the same shape with the same pixels are equal. */
  lemma GridsEqual(g: Grid, g': Grid, h: nat, w: nat)
    requires Shaped(g, h, w) && Shaped(g', h, w)
    requires forall y, x :: 0 <= y < h && 0 <= x < w ==> g[y][x] == g'[y][x]
    ensures g == g'
  {
    forall y | 0 <= y < h
      ensures g[y] == g'[y]
    {
      assert forall x :: 0 <= x < w ==> g[y][x] == g'[y][x];
    }
  }

  /** The pixels of `a` as a grid. */
  ghost function Snapshot(a: array2<Pixel>): (g: Grid)
    reads a
    ensures Shaped(g, a.Length0, a.Length1)
    ensures forall y, x :: 0 <= y < a.Length0 && 0 <= x < a.Length1 ==> g[y][x] == a[y, x]
  {
    seq(a.Length0, y requires 0 <= y < a.Length0 reads a =>
      seq(a.Length1, x requires 0 <= x < a.Length1 reads a => a[y, x]))
  }

  function FirstPassGrid(g: Grid, h: nat, w: nat): (r: Grid)
    requires Shaped(g, h, w)
    ensures Shaped(r, h, w)
    ensures forall y, x :: 0 <= y < h && 0 <= x < w ==> r[y][x] == FirstPass(g[y][x])
  {
    seq(h, y requires 0 <= y < h => seq(w, x requires 0 <= x < w => FirstPass(g[y][x])))
  }

  /** The first pass of `remove_background`, over every pixel in row-major order. */
  method RemoveBackgroundFirstPass(a: array2<Pixel>)
    modifies a
    ensures forall y, x :: 0 <= y < a.Length0 && 0 <= x < a.Length1 ==> a[y, x] == FirstPass(old(a[y, x]))
  {
    for y := 0 to a.Length0
      invariant forall j, i :: 0 <= j < a.Length0 && 0 <= i < a.Length1 ==>
                  a[j, i] == if j < y then FirstPass(old(a[j, i])) else old(a[j, i])
    {
      for x := 0 to a.Length1
        invariant forall j, i :: 0 <= j < a.Length0 && 0 <= i < a.Length1 ==>
                    a[j, i] == if j < y || (j == y && i < x) then FirstPass(old(a[j, i])) else old(a[j, i])
      {
        var p := a[y, x];
        if p.a != 0 && Removable(p) {
          a[y, x] := Transparent;
        }
      }
    }
  }

  /** Green fringe: bright green clearly above red and blue. */
  predicate Fringe(p: Pixel)
  {
    p.g > 180 && p.g > p.r + 50 && p.g > p.b + 30
  }

  /** (x, y) is not on the image border, so all eight neighbours exist. */
  predicate Interior(h: nat, w: nat, y: int, x: int)
  {
    1 <= y < h - 1 && 1 <= x < w - 1
  }

  function TransparentCount(p: Pixel): nat
  {
    if p.a == 0 then 1 else 0
  }

  /** Transparent neighbours at row offset `dy` and column offsets -1 .. `e` - 1, skipping (0, 0). */
  function RowNeighbours(g: Grid, h: nat, w: nat, y: int, x: int, dy: int, e: int): nat
    requires Shaped(g, h, w) && Interior(h, w, y, x) && -1 <= dy <= 1 && -1 <= e <= 2
    decreases e + 1
  {
    if e == -1 then 0
    else RowNeighbours(g, h, w, y, x, dy, e - 1)
         + (if dy == 0 && e - 1 == 0 then 0 else TransparentCount(g[y + dy][x + e - 1]))
  }

  /** Transparent neighbours at row offsets -1 .. `d` - 1. */
  function NeighboursUpTo(g: Grid, h: nat, w: nat, y: int, x: int, d: int): nat
    requires Shaped(g, h, w) && Interior(h, w, y, x) && -1 <= d <= 2
    decreases d + 1
  {
    if d == -1 then 0 else NeighboursUpTo(g, h, w, y, x, d - 1) + RowNeighbours(g, h, w, y, x, d - 1, 2)
  }

  /** The number of transparent pixels among the eight neighbours of (x, y). */
  function TransparentNeighbours(g: Grid, h: nat, w: nat, y: int, x: int): nat
    requires Shaped(g, h, w) && Interior(h, w, y, x)
  {
    NeighboursUpTo(g, h, w, y, x, 2)
  }

  /** The count is the number of transparent pixels among the eight around (x, y). */
  lemma TransparentNeighboursBound(g: Grid, h: nat, w: nat, y: int, x: int)
    requires Shaped(g, h, w) && Interior(h, w, y, x)
    ensures TransparentNeighbours(g, h, w, y, x) <= 8
    ensures TransparentNeighbours(g, h, w, y, x) ==
              TransparentCount(g[y - 1][x - 1]) + TransparentCount(g[y - 1][x]) + TransparentCount(g[y - 1][x + 1])
              + TransparentCount(g[y][x - 1]) + TransparentCount(g[y][x + 1])
              + TransparentCount(g[y + 1][x - 1]) + TransparentCount(g[y + 1][x]) + TransparentCount(g[y + 1][x + 1])
  {
  }

  /** The second pass at one interior pixel of the current grid. */
  function SecondPassStep(g: Grid, h: nat, w: nat, y: int, x: int): (r: Grid)
    requires Shaped(g, h, w) && Interior(h, w, y, x)
    ensures Shaped(r, h, w)
  {
    var p := g[y][x];
    if p.a != 0 && TransparentNeighbours(g, h, w, y, x) >= 3 && Fringe(p) then g[y := g[y][x := Transparent]]
    else g
  }

  /** The second pass over columns `x` .. `w` - 2 of row `y`. */
  function RowFrom(g: Grid, h: nat, w: nat, y: int, x: int): (r: Grid)
    requires Shaped(g, h, w) && 1 <= y < h - 1 && 1 <= x
    ensures Shaped(r, h, w)
    decreases w - x
  {
    if x >= w - 1 then g else RowFrom(SecondPassStep(g, h, w, y, x), h, w, y, x + 1)
  }

  /** The second pass over rows `y` .. `h` - 2. */
  function RowsFrom(g: Grid, h: nat, w: nat, y: int): (r: Grid)
    requires Shaped(g, h, w) && 1 <= y
    ensures Shaped(r, h, w)
    decreases h - y
  {
    if y >= h - 1 then g else RowsFrom(RowFrom(g, h, w, y, 1), h, w, y + 1)
  }

  /**
   * The second pass: interior pixels in row-major order, each seeing the
   * removals already made earlier in the same pass.
   */
  function SecondPass(g: Grid, h: nat, w: nat): (r: Grid)
    requires Shaped(g, h, w)
    ensures Shaped(r, h, w)
  {
    RowsFrom(g, h, w, 1)
  }

  /**
   * `g` evolved from `g0` by second-pass removals only: every pixel is
   * unchanged, or it was an opaque green-fringe interior pixel and is now
   * transparent.
   */
  predicate Evolved(g0: Grid, g: Grid, h: nat, w: nat)
    requires Shaped(g0, h, w) && Shaped(g, h, w)
  {
    forall y, x :: 0 <= y < h && 0 <= x < w ==>
      g[y][x] == g0[y][x]
      || (g[y][x] == Transparent && Interior(h, w, y, x) && g0[y][x].a != 0 && Fringe(g0[y][x]))
  }

  lemma StepEvolves(g0: Grid, g: Grid, h: nat, w: nat, y: int, x: int)
    requires Shaped(g0, h, w) && Shaped(g, h, w) && Interior(h, w, y, x) && Evolved(g0, g, h, w)
    ensures Evolved(g0, SecondPassStep(g, h, w, y, x), h, w)
  {
  }

  lemma {:induction false} RowFromEvolves(g0: Grid, g: Grid, h: nat, w: nat, y: int, x: int)
    requires Shaped(g0, h, w) && Shaped(g, h, w) && 1 <= y < h - 1 && 1 <= x && Evolved(g0, g, h, w)
    ensures Evolved(g0, RowFrom(g, h, w, y, x), h, w)
    decreases w - x
  {
    if x < w - 1 {
      StepEvolves(g0, g, h, w, y, x);
      RowFromEvolves(g0, SecondPassStep(g, h, w, y, x), h, w, y, x + 1);
    }
  }

  lemma {:induction false} RowsFromEvolves(g0: Grid, g: Grid, h: nat, w: nat, y: int)
    requires Shaped(g0, h, w) && Shaped(g, h, w) && 1 <= y && Evolved(g0, g, h, w)
    ensures Evolved(g0, RowsFrom(g, h, w, y), h, w)
    decreases h - y
  {
    if y < h - 1 {
      RowFromEvolves(g0, g, h, w, y, 1);
      RowsFromEvolves(g0, RowFrom(g, h, w, y, 1), h, w, y + 1);
    }
  }

  /**
   * The second pass leaves the border and every pixel that is transparent
   * or not green fringe untouched; what it changes becomes transparent.
   */
  lemma SecondPassProperties(g: Grid, h: nat, w: nat)
    requires Shaped(g, h, w)
    ensures Evolved(g, SecondPass(g, h, w), h, w)
  {
    RowsFromEvolves(g, g, h, w, 1);
  }

  /** `a` holds the grid `g`. */
  ghost predicate Holds(a: array2<Pixel>, g: Grid)
    reads a
  {
    Shaped(g, a.Length0, a.Length1)
    && forall y, x :: 0 <= y < a.Length0 && 0 <= x < a.Length1 ==> a[y, x] == g[y][x]
  }

  /** The eight-neighbour count, read from the image as it stands. */
  method CountTransparentNeighbours(a: array2<Pixel>, y: int, x: int, ghost g: Grid) returns (n: nat)
    requires Holds(a, g) && Interior(a.Length0, a.Length1, y, x)
    ensures n == TransparentNeighbours(g, a.Length0, a.Length1, y, x)
  {
    n := 0;
    for dy := -1 to 2
      invariant n == NeighboursUpTo(g, a.Length0, a.Length1, y, x, dy)
    {
      for dx := -1 to 2
        invariant n == NeighboursUpTo(g, a.Length0, a.Length1, y, x, dy) + RowNeighbours(g, a.Length0, a.Length1, y, x, dy, dx)
      {
        if !(dx == 0 && dy == 0) {
          if a[y + dy, x + dx].a == 0 {
            n := n + 1;
          }
        }
      }
    }
  }

  /** The second pass at one interior pixel, in place. */
  method SecondPassAt(a: array2<Pixel>, y: int, x: int, ghost g: Grid)
    requires Holds(a, g) && Interior(a.Length0, a.Length1, y, x)
    modifies a
    ensures Holds(a, SecondPassStep(g, a.Length0, a.Length1, y, x))
  {
    var p := a[y, x];
    if p.a != 0 {
      var n := CountTransparentNeighbours(a, y, x, g);
      if n >= 3 && Fringe(p) {
        a[y, x] := Transparent;
      }
    }
  }

  /** The second pass of `remove_background`, over the interior in row-major order. */
  method RemoveBackgroundSecondPass(a: array2<Pixel>)
    modifies a
    ensures Holds(a, SecondPass(old(Snapshot(a)), a.Length0, a.Length1))
  {
    ghost var g0 := Snapshot(a);
    ghost var g := g0;
    var h, w := a.Length0, a.Length1;
    var y := 1;
    while y < h - 1
      invariant 1 <= y && Holds(a, g)
      invariant RowsFrom(g, h, w, y) == SecondPass(g0, h, w)
    {
      var x := 1;
      while x < w - 1
        invariant 1 <= x && Holds(a, g)
        invariant RowsFrom(RowFrom(g, h, w, y, x), h, w, y + 1) == SecondPass(g0, h, w)
      {
        SecondPassAt(a, y, x, g);
        g := SecondPassStep(g, h, w, y, x);
        x := x + 1;
      }
      y := y + 1;
    }
  }

  /**
   * The two pixel passes of `remove_background`: the first over every
   * pixel, then the second over the interior of the result.
   */
  method RemoveBackground(a: array2<Pixel>)
    modifies a
    ensures var h, w := a.Length0, a.Length1;
            Holds(a, SecondPass(FirstPassGrid(old(Snapshot(a)), h, w), h, w))
  {
    ghost var g0 := Snapshot(a);
    RemoveBackgroundFirstPass(a);
    ghost var g1 := Snapshot(a);
    GridsEqual(g1, FirstPassGrid(g0, a.Length0, a.Length1), a.Length0, a.Length1);
    RemoveBackgroundSecondPass(a);
  }

  /**
   * After both passes every pixel is either as it was or transparent. An
   * opaque background pixel is always cleared. A pixel that was already
   * transparent stays as it was. Any other cleared pixel was removable,
   * or it was an interior pixel of green fringe.
   */
  lemma RemoveBackgroundProperties(g: Grid, h: nat, w: nat, y: nat, x: nat)
    requires Shaped(g, h, w) && y < h && x < w
    ensures var r := SecondPass(FirstPassGrid(g, h, w), h, w)[y][x];
            (r == g[y][x] || r == Transparent)
            && (g[y][x].a != 0 && IsBackground(g[y][x]) ==> r == Transparent)
            && (g[y][x].a == 0 ==> r == g[y][x])
            && (r != g[y][x] ==> Removable(g[y][x]) || (Interior(h, w, y, x) && Fringe(g[y][x])))
  {
    var g1 := FirstPassGrid(g, h, w);
    SecondPassProperties(g1, h, w);
    FirstPassProperties(g[y][x]);
  }
}
