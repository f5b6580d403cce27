/**
 * Island counting in the sprite-sheet pipeline: a row-major scan that
 * flood-fills every unvisited non-background pixel with an explicit
 * stack and a visited grid, counts the 4-connected components of at
 * least 100 pixels, and the 4x4 sheet validation built on that count.
 *
 * A pixel position is a `Cell` `(x, y)`; images are indexed `rows[y][x]`
 * and the visited grid `visited[y, x]`, as in the source.
 */
module SpriteIslands {
  import opened Wrappers
  import opened Raster
  import opened SpriteColours

  // ---------------------------------------------------------------------
  // Cells, 4-neighbourhood and connected components
  // ---------------------------------------------------------------------

  /** Minimum size of a component that counts as a sprite. */
  const MinIslandSize: nat := 100

  /** The four neighbours the flood fill pushes: right, left, down, up. */
  predicate Adjacent(a: Cell, b: Cell)
  {
    (b.0 == a.0 + 1 && b.1 == a.1) || (b.0 == a.0 - 1 && b.1 == a.1)
    || (b.0 == a.0 && b.1 == a.1 + 1) || (b.0 == a.0 && b.1 == a.1 - 1)
  }

  /** The cells the flood fill pushes, in its order: right, left, below, above. */
  function Neighbours(c: Cell): (r: seq<Cell>)
    ensures |r| == 4 && forall n :: n in r <==> Adjacent(c, n)
  {
    [(c.0 + 1, c.1), (c.0 - 1, c.1), (c.0, c.1 + 1), (c.0, c.1 - 1)]
  }

  predicate InGrid(img: Image, c: Cell)
  {
    0 <= c.0 < img.width && 0 <= c.1 < img.height
  }

  /** An in-bounds pixel that is not background. */
  predicate Solid(img: Image, c: Cell)
    requires WellFormed(img)
  {
    InGrid(img, c) && !IsBackground(img.rows[c.1][c.0])
  }

  ghost function Cells(img: Image): set<Cell>
  {
    set x, y | 0 <= x < img.width && 0 <= y < img.height :: (x, y)
  }

  ghost function SolidCells(img: Image): set<Cell>
    requires WellFormed(img)
  {
    set c | c in Cells(img) && Solid(img, c)
  }

  /** `p` walks from `a` to `b` through 4-neighbours, never leaving `s`. */
  ghost predicate PathIn(p: seq<Cell>, a: Cell, b: Cell, s: set<Cell>)
  {
    |p| > 0 && p[0] == a && p[|p| - 1] == b
    && (forall i :: 0 <= i < |p| ==> p[i] in s)
    && (forall i :: 0 <= i < |p| - 1 ==> Adjacent(p[i], p[i + 1]))
  }

  /** `p` walks from `a` to `b` through 4-neighbours that are all solid. */
  ghost predicate SolidPath(img: Image, p: seq<Cell>, a: Cell, b: Cell)
    requires WellFormed(img)
  {
    |p| > 0 && p[0] == a && p[|p| - 1] == b
    && (forall i :: 0 <= i < |p| ==> Solid(img, p[i]))
    && (forall i :: 0 <= i < |p| - 1 ==> Adjacent(p[i], p[i + 1]))
  }

  /** The 4-connected component of solid pixels containing `root`. */
  ghost function Component(img: Image, root: Cell): set<Cell>
    requires WellFormed(img)
  {
    set c | c in Cells(img) && exists p :: SolidPath(img, p, root, c)
  }

  /** Every solid neighbour of a cell of `s` lies in `s`. */
  ghost predicate Closed(img: Image, s: set<Cell>)
    requires WellFormed(img)
  {
    forall c, n :: c in s && Adjacent(c, n) && Solid(img, n) ==> n in s
  }

  /** `paths` holds, for every cell of `s`, a walk inside `s` from `root`. */
  ghost predicate Spans(s: set<Cell>, root: Cell, paths: map<Cell, seq<Cell>>)
  {
    forall c :: c in s ==> c in paths && PathIn(paths[c], root, c, s)
  }

  /** The components with at least `MinIslandSize` pixels: the sprites. */
  ghost function LargeComponents(img: Image): set<set<Cell>>
    requires WellFormed(img)
  {
    set c | c in SolidCells(img) && |Component(img, c)| >= MinIslandSize :: Component(img, c)
  }

  lemma AdjacentSymmetric(a: Cell, b: Cell)
    ensures Adjacent(a, b) <==> Adjacent(b, a)
  {
  }

  /** A walk that starts inside a closed set never leaves it. */
  lemma {:induction false} ClosedKeepsPath(img: Image, s: set<Cell>, p: seq<Cell>, a: Cell, b: Cell)
    requires WellFormed(img) && Closed(img, s) && a in s && SolidPath(img, p, a, b)
    ensures forall i :: 0 <= i < |p| ==> p[i] in s
    ensures b in s
  {
    var k := 1;
    while k < |p|
      invariant 1 <= k <= |p|
      invariant forall i :: 0 <= i < k ==> p[i] in s
    {
      assert Adjacent(p[k - 1], p[k]) && Solid(img, p[k]);
      k := k + 1;
    }
  }

  /** Walking a path backwards is a path. */
  lemma ReversePath(img: Image, p: seq<Cell>, a: Cell, b: Cell) returns (q: seq<Cell>)
    requires WellFormed(img) && SolidPath(img, p, a, b)
    ensures SolidPath(img, q, b, a)
  {
    q := seq(|p|, i requires 0 <= i < |p| => p[|p| - 1 - i]);
    forall i | 0 <= i < |q| - 1
      ensures Adjacent(q[i], q[i + 1])
    {
      var j := |p| - 2 - i;
      assert Adjacent(p[j], p[j + 1]);
      AdjacentSymmetric(p[j], p[j + 1]);
    }
  }

  /** Two paths meeting at `b` join into one. */
  lemma JoinPaths(img: Image, p: seq<Cell>, q: seq<Cell>, a: Cell, b: Cell, c: Cell) returns (r: seq<Cell>)
    requires WellFormed(img) && SolidPath(img, p, a, b) && SolidPath(img, q, b, c)
    ensures SolidPath(img, r, a, c)
  {
    r := p + q[1..];
    forall i | 0 <= i < |r| - 1
      ensures Adjacent(r[i], r[i + 1])
    {
      if i < |p| - 1 {
        assert r[i] == p[i] && r[i + 1] == p[i + 1];
      } else {
        var j := i - |p| + 1;
        assert r[i] == q[j] && r[i + 1] == q[j + 1];
      }
    }
  }

  /**
   * A nonempty set of solid pixels that is closed and spanned from `root`
   * is exactly the component of `root`.
   */
  lemma SpannedClosedIsComponent(img: Image, s: set<Cell>, root: Cell, paths: map<Cell, seq<Cell>>)
    requires WellFormed(img) && root in s && Closed(img, s) && Spans(s, root, paths)
    requires forall c :: c in s ==> Solid(img, c)
    ensures s == Component(img, root)
  {
    forall c | c in s
      ensures c in Component(img, root)
    {
      assert PathIn(paths[c], root, c, s);
      assert SolidPath(img, paths[c], root, c);
    }
    forall c | c in Component(img, root)
      ensures c in s
    {
      var p :| SolidPath(img, p, root, c);
      ClosedKeepsPath(img, s, p, root, c);
    }
  }

  /** A component holds only solid pixels, and a solid pixel lies in its own component. */
  lemma ComponentSolid(img: Image, root: Cell)
    requires WellFormed(img)
    ensures forall c :: c in Component(img, root) ==> Solid(img, c)
    ensures Solid(img, root) ==> root in Component(img, root)
  {
    forall c | c in Component(img, root)
      ensures Solid(img, c)
    {
      var p :| SolidPath(img, p, root, c);
      assert Solid(img, p[|p| - 1]);
    }
    if Solid(img, root) {
      assert SolidPath(img, [root], root, root);
    }
  }

  /** A component is closed: a solid neighbour of a member is a member. */
  lemma ComponentClosed(img: Image, root: Cell)
    requires WellFormed(img)
    ensures Closed(img, Component(img, root))
  {
    forall c, n | c in Component(img, root) && Adjacent(c, n) && Solid(img, n)
      ensures n in Component(img, root)
    {
      var p :| SolidPath(img, p, root, c);
      var q := p + [n];
      assert q[|q| - 2] == c;
      assert SolidPath(img, q, root, n);
    }
  }

  /** Every member of a component has that same component. */
  lemma ComponentOfMember(img: Image, root: Cell, c: Cell)
    requires WellFormed(img) && c in Component(img, root)
    ensures Component(img, c) == Component(img, root)
  {
    var toC :| SolidPath(img, toC, root, c);
    var back := ReversePath(img, toC, root, c);
    forall d | d in Component(img, root)
      ensures d in Component(img, c)
    {
      var toD :| SolidPath(img, toD, root, d);
      var walk := JoinPaths(img, back, toD, c, root, d);
    }
    forall d | d in Component(img, c)
      ensures d in Component(img, root)
    {
      var fromC :| SolidPath(img, fromC, c, d);
      var walk := JoinPaths(img, toC, fromC, root, c, d);
    }
  }

  // ---------------------------------------------------------------------
  // Flood fill
  // ---------------------------------------------------------------------

  /** `visited` is true exactly on the cells of `marked`, all in the grid. */
  ghost predicate Mirrors(visited: array2<bool>, marked: set<Cell>)
    reads visited
  {
    (forall y, x :: 0 <= y < visited.Length0 && 0 <= x < visited.Length1 ==>
      (visited[y, x] <==> (x, y) in marked))
    && (forall c :: c in marked ==> 0 <= c.0 < visited.Length1 && 0 <= c.1 < visited.Length0)
  }

  /** A path within `s` stays a path within any larger set. */
  lemma SpansGrow(s: set<Cell>, root: Cell, paths: map<Cell, seq<Cell>>, c: Cell, p: seq<Cell>)
    requires Spans(s, root, paths) && PathIn(p, root, c, s + {c})
    ensures Spans(s + {c}, root, paths[c := p])
  {
    forall d | d in s + {c}
      ensures d in paths[c := p] && PathIn(paths[c := p][d], root, d, s + {c})
    {
      if d != c {
        assert PathIn(paths[d], root, d, s);
      }
    }
  }

  /**
   * Every stacked cell is `start` (before anything is marked) or a
   * neighbour of the marked cell `via[i]` that pushed it.
   */
  ghost predicate Pushed(stack: seq<Cell>, via: seq<Cell>, comp: set<Cell>, start: Cell)
  {
    |via| == |stack|
    && forall i :: 0 <= i < |stack| ==>
         (comp == {} && stack[i] == start) || (via[i] in comp && Adjacent(via[i], stack[i]))
  }

  /** Every solid neighbour of a marked cell is marked or still on the stack. */
  ghost predicate Frontier(img: Image, comp: set<Cell>, marked0: set<Cell>, stack: seq<Cell>)
    requires WellFormed(img)
  {
    forall c, n :: c in comp && Adjacent(c, n) && Solid(img, n) ==> n in marked0 + comp || n in stack
  }

  lemma PushedPop(stack: seq<Cell>, via: seq<Cell>, comp: set<Cell>, start: Cell)
    requires Pushed(stack, via, comp, start) && |stack| > 0
    ensures Pushed(stack[..|stack| - 1], via[..|via| - 1], comp, start)
  {
  }

  lemma PushedMark(stack: seq<Cell>, via: seq<Cell>, comp: set<Cell>, start: Cell, c: Cell)
    requires Pushed(stack, via, comp, start) && (comp == {} ==> stack == [])
    ensures Pushed(stack + Neighbours(c),
                   via + [c, c, c, c], comp + {c}, start)
  {
  }

  lemma FrontierPop(img: Image, comp: set<Cell>, marked0: set<Cell>, stack: seq<Cell>)
    requires WellFormed(img) && Frontier(img, comp, marked0, stack) && |stack| > 0
    requires var c := stack[|stack| - 1]; c in marked0 + comp || !Solid(img, c)
    ensures Frontier(img, comp, marked0, stack[..|stack| - 1])
  {
    var rest := stack[..|stack| - 1];
    forall c, n | c in comp && Adjacent(c, n) && Solid(img, n)
      ensures n in marked0 + comp || n in rest
    {
      if n !in marked0 + comp {
        assert n in stack;
        assert n == stack[|stack| - 1] || n in rest;
      }
    }
  }

  lemma FrontierMark(img: Image, comp: set<Cell>, marked0: set<Cell>, stack: seq<Cell>)
    requires WellFormed(img) && Frontier(img, comp, marked0, stack) && |stack| > 0
    ensures var c := stack[|stack| - 1];
            Frontier(img, comp + {c}, marked0,
                     stack[..|stack| - 1] + Neighbours(c))
  {
    var c := stack[|stack| - 1];
    var rest := stack[..|stack| - 1];
    var next := rest + Neighbours(c);
    forall d, n | d in comp + {c} && Adjacent(d, n) && Solid(img, n)
      ensures n in marked0 + (comp + {c}) || n in next
    {
      if d == c {
        assert n in next[|rest|..];
      } else if n !in marked0 + comp {
        assert n in stack;
        assert n == c || n in rest;
      }
    }
  }

  /**
   * The flood fill's bookkeeping between two pops: `comp` holds the cells
   * marked so far (new, solid, spanned from `start` by `paths`), the
   * stack holds pushed neighbours, and nothing solid next to `comp` has
   * been lost.
   */
  ghost predicate FillState(img: Image, marked0: set<Cell>, start: Cell, comp: set<Cell>,
                            paths: map<Cell, seq<Cell>>, stack: seq<Cell>, via: seq<Cell>)
    requires WellFormed(img)
  {
    comp !! marked0
    && (forall c :: c in comp ==> Solid(img, c))
    && Pushed(stack, via, comp, start)
    && (comp == {} ==> |stack| <= 1)
    && (comp == {} && stack == [] ==> !Solid(img, start) || start in marked0)
    && (comp != {} ==> start in comp && Spans(comp, start, paths))
    && Frontier(img, comp, marked0, stack)
  }

  /** Popping a cell that is skipped keeps the bookkeeping. */
  lemma FillSkip(img: Image, marked0: set<Cell>, start: Cell, comp: set<Cell>,
                 paths: map<Cell, seq<Cell>>, stack: seq<Cell>, via: seq<Cell>)
    requires WellFormed(img) && FillState(img, marked0, start, comp, paths, stack, via) && |stack| > 0
    requires var c := stack[|stack| - 1]; c in marked0 + comp || !Solid(img, c)
    ensures FillState(img, marked0, start, comp, paths, stack[..|stack| - 1], via[..|via| - 1])
  {
    PushedPop(stack, via, comp, start);
    FrontierPop(img, comp, marked0, stack);
  }

  /** Marking the popped cell and pushing its neighbours keeps the bookkeeping. */
  lemma FillMark(img: Image, marked0: set<Cell>, start: Cell, comp: set<Cell>,
                 paths: map<Cell, seq<Cell>>, stack: seq<Cell>, via: seq<Cell>) returns (p: seq<Cell>)
    requires WellFormed(img) && FillState(img, marked0, start, comp, paths, stack, via) && |stack| > 0
    requires var c := stack[|stack| - 1]; c !in marked0 + comp && Solid(img, c)
    ensures var c := stack[|stack| - 1];
            FillState(img, marked0, start, comp + {c}, paths[c := p],
                      stack[..|stack| - 1] + Neighbours(c),
                      via[..|via| - 1] + [c, c, c, c])
  {
    var c := stack[|stack| - 1];
    var parent := via[|via| - 1];
    assert comp == {} ==> c == start;
    assert comp != {} ==> parent in comp && Adjacent(parent, c);
    p := FillPath(start, comp, paths, parent, c);
    FrontierMark(img, comp, marked0, stack);
    PushedPop(stack, via, comp, start);
    PushedMark(stack[..|stack| - 1], via[..|via| - 1], comp, start, c);
  }

  /**
   * The path to a newly marked cell: the path to the cell it was pushed
   * from, extended by one step (the start cell alone when nothing was
   * marked yet).
   */
  lemma FillPath(start: Cell, comp: set<Cell>, paths: map<Cell, seq<Cell>>, parent: Cell, c: Cell)
    returns (p: seq<Cell>)
    requires c !in comp
    requires comp == {} ==> c == start
    requires comp != {} ==> start in comp && Spans(comp, start, paths) && parent in comp && Adjacent(parent, c)
    ensures Spans(comp + {c}, start, paths[c := p])
  {
    p := if comp == {} then [c] else paths[parent] + [c];
    if comp != {} {
      assert PathIn(paths[parent], start, parent, comp);
    }
    assert PathIn(p, start, c, comp + {c});
    SpansGrow(comp, start, paths, c, p);
  }

  /** The bookkeeping before the first pop. */
  lemma FillStart(img: Image, marked0: set<Cell>, start: Cell)
    requires WellFormed(img)
    ensures FillState(img, marked0, start, {}, map[], [start], [start])
  {
  }

  /** Once the stack is empty the marked cells are closed relative to `marked0`. */
  lemma FillDone(img: Image, marked0: set<Cell>, start: Cell, comp: set<Cell>,
                 paths: map<Cell, seq<Cell>>, via: seq<Cell>)
    requires WellFormed(img) && FillState(img, marked0, start, comp, paths, [], via)
    ensures comp !! marked0 && forall c :: c in comp ==> Solid(img, c)
    ensures comp != {} <==> Solid(img, start) && start !in marked0
    ensures comp != {} ==> start in comp && Spans(comp, start, paths)
    ensures forall c, n :: c in comp && Adjacent(c, n) && Solid(img, n) ==> n in marked0 + comp
  {
  }

  /** Sets `visited[y, x]`, keeping the grid in step with the marked set. */
  method Mark(visited: array2<bool>, x: int, y: int, ghost marked: set<Cell>)
    requires 0 <= y < visited.Length0 && 0 <= x < visited.Length1 && Mirrors(visited, marked)
    modifies visited
    ensures Mirrors(visited, marked + {(x, y)})
  {
    visited[y, x] := true;
  }

  /**
   * One iteration of the flood fill: pop a cell; skip it when it is
   * outside the image, visited or background; otherwise mark and count it
   * and push its right, left, lower and upper neighbours.
   */
  method FillStep(img: Image, visited: array2<bool>, stack: seq<Cell>, count: nat, ghost marked0: set<Cell>,
                  ghost start: Cell, ghost comp: set<Cell>, ghost paths: map<Cell, seq<Cell>>, ghost via: seq<Cell>)
    returns (stack': seq<Cell>, count': nat, ghost comp': set<Cell>, ghost paths': map<Cell, seq<Cell>>,
             ghost via': seq<Cell>)
    requires WellFormed(img) && visited.Length0 == img.height && visited.Length1 == img.width
    requires |stack| > 0 && Mirrors(visited, marked0 + comp) && count == |comp|
    requires FillState(img, marked0, start, comp, paths, stack, via)
    modifies visited
    ensures Mirrors(visited, marked0 + comp') && count' == |comp'|
    ensures FillState(img, marked0, start, comp', paths', stack', via')
    ensures (comp' == comp && |stack'| < |stack|)
            || (Cells(img) - (marked0 + comp') < Cells(img) - (marked0 + comp))
  {
    var c := stack[|stack| - 1];
    var x, y := c.0, c.1;
    if x < 0 || x >= img.width || y < 0 || y >= img.height || visited[y, x] || IsBackground(img.rows[y][x]) {
      FillSkip(img, marked0, start, comp, paths, stack, via);
      stack', count', comp', paths', via' := stack[..|stack| - 1], count, comp, paths, via[..|via| - 1];
    } else {
      assert c == (x, y) && c in Cells(img);
      ghost var p := FillMark(img, marked0, start, comp, paths, stack, via);
      Mark(visited, x, y, marked0 + comp);
      count' := count + 1;
      comp', paths' := comp + {c}, paths[c := p];
      stack' := stack[..|stack| - 1] + Neighbours(c);
      via' := via[..|via| - 1] + [c, c, c, c];
    }
  }

  /**
   * `flood_fill`: from `start`, pop cells off an explicit stack; skip those
   * outside the image, already visited or background; mark the others,
   * count them and push their four neighbours. The marked cells `comp`
   * are new, solid, reachable from `start` inside `comp`, and every solid
   * neighbour of one of them was marked before or now; nothing is marked
   * exactly when `start` is solid and was not yet visited.
   */
  method FloodFill(img: Image, visited: array2<bool>, start: Cell, ghost marked0: set<Cell>)
    returns (count: nat, ghost comp: set<Cell>, ghost paths: map<Cell, seq<Cell>>)
    requires WellFormed(img) && visited.Length0 == img.height && visited.Length1 == img.width
    requires Mirrors(visited, marked0)
    modifies visited
    ensures Mirrors(visited, marked0 + comp) && comp !! marked0 && count == |comp|
    ensures forall c :: c in comp ==> Solid(img, c)
    ensures comp != {} <==> Solid(img, start) && start !in marked0
    ensures comp != {} ==> start in comp && Spans(comp, start, paths)
    ensures forall c, n :: c in comp && Adjacent(c, n) && Solid(img, n) ==> n in marked0 + comp
  {
    var stack := [start];
    ghost var via: seq<Cell> := [start];
    count, comp, paths := 0, {}, map[];
    FillStart(img, marked0, start);
    while |stack| > 0
      invariant Mirrors(visited, marked0 + comp) && count == |comp|
      invariant FillState(img, marked0, start, comp, paths, stack, via)
      decreases Cells(img) - (marked0 + comp), |stack|
    {
      stack, count, comp, paths, via := FillStep(img, visited, stack, count, marked0, start, comp, paths, via);
    }
    FillDone(img, marked0, start, comp, paths, via);
  }

  // ---------------------------------------------------------------------
  // Island counting and sheet validation
  // ---------------------------------------------------------------------

  /** The number of components in `comps` with at least `MinIslandSize` cells. */
  ghost function LargeCount(comps: seq<set<Cell>>): nat
  {
    if comps == [] then 0
    else LargeCount(comps[..|comps| - 1]) + (if |comps[|comps| - 1]| >= MinIslandSize then 1 else 0)
  }

  lemma LargeCountAppend(comps: seq<set<Cell>>, comp: set<Cell>)
    ensures LargeCount(comps + [comp]) == LargeCount(comps) + (if |comp| >= MinIslandSize then 1 else 0)
  {
    assert (comps + [comp])[..|comps|] == comps;
  }

  lemma CountIsland(islands: nat, comps: seq<set<Cell>>, comp: set<Cell>, count: nat)
    requires islands == LargeCount(comps) && count == |comp|
    ensures (if count >= MinIslandSize then islands + 1 else islands) == LargeCount(comps + [comp])
  {
    LargeCountAppend(comps, comp);
  }

  ghost function LargeSet(comps: seq<set<Cell>>): set<set<Cell>>
  {
    set s | s in comps && |s| >= MinIslandSize
  }

  /**
   * The components found so far: each the component of its root, all
   * marked, pairwise disjoint; `owner` names the part of every marked cell.
   */
  ghost predicate Partition(img: Image, comps: seq<set<Cell>>, roots: seq<Cell>, marked: set<Cell>, owner: map<Cell, nat>)
    requires WellFormed(img)
  {
    |comps| == |roots|
    && (forall i :: 0 <= i < |comps| ==> comps[i] == Component(img, roots[i]) && roots[i] in comps[i])
    && (forall i :: 0 <= i < |comps| ==> comps[i] <= marked)
    && (forall i, j :: 0 <= i < j < |comps| ==> comps[i] !! comps[j])
    && (forall c :: c in marked ==> c in owner && owner[c] < |comps| && c in comps[owner[c]])
  }

  /**
   * A fill from `root` that avoids the marked cells, is spanned from
   * `root` and is closed relative to the marked cells is the component of
   * `root`: every earlier part is a closed component the fill avoids.
   */
  lemma FillIsComponent(img: Image, comps: seq<set<Cell>>, roots: seq<Cell>, marked: set<Cell>, owner: map<Cell, nat>,
                        comp: set<Cell>, root: Cell, paths: map<Cell, seq<Cell>>)
    requires WellFormed(img) && Partition(img, comps, roots, marked, owner)
    requires comp !! marked && root in comp && Spans(comp, root, paths)
    requires forall c :: c in comp ==> Solid(img, c)
    requires forall c, n :: c in comp && Adjacent(c, n) && Solid(img, n) ==> n in marked + comp
    ensures comp == Component(img, root)
  {
    forall c, n | c in comp && Adjacent(c, n) && Solid(img, n)
      ensures n in comp
    {
      if n in marked {
        var k := owner[n];
        ComponentClosed(img, roots[k]);
        AdjacentSymmetric(c, n);
        assert false;
      }
    }
    SpannedClosedIsComponent(img, comp, root, paths);
  }

  /** Appending a component keeps every part the component of its root, and marked. */
  lemma AddComponentParts(img: Image, comps: seq<set<Cell>>, roots: seq<Cell>, marked: set<Cell>, root: Cell)
    requires WellFormed(img) && |comps| == |roots| && root in Component(img, root)
    requires forall i :: 0 <= i < |comps| ==> comps[i] == Component(img, roots[i]) && roots[i] in comps[i]
    requires forall i :: 0 <= i < |comps| ==> comps[i] <= marked
    ensures var comps', roots' := comps + [Component(img, root)], roots + [root];
            forall i :: 0 <= i < |comps'| ==>
              comps'[i] == Component(img, roots'[i]) && roots'[i] in comps'[i]
              && comps'[i] <= marked + Component(img, root)
  {
    var comps', roots' := comps + [Component(img, root)], roots + [root];
    forall i | 0 <= i < |comps'|
      ensures comps'[i] == Component(img, roots'[i]) && roots'[i] in comps'[i]
              && comps'[i] <= marked + Component(img, root)
    {
      if i < |comps| {
        assert comps'[i] == comps[i] && roots'[i] == roots[i];
      }
    }
  }

  /** Appending a component that avoids the marked cells keeps the parts disjoint. */
  lemma AddComponentDisjoint(comps: seq<set<Cell>>, marked: set<Cell>, comp: set<Cell>)
    requires forall i :: 0 <= i < |comps| ==> comps[i] <= marked
    requires forall i, j :: 0 <= i < j < |comps| ==> comps[i] !! comps[j]
    requires comp !! marked
    ensures forall i, j :: 0 <= i < j < |comps + [comp]| ==> (comps + [comp])[i] !! (comps + [comp])[j]
  {
    var comps' := comps + [comp];
    forall i, j | 0 <= i < j < |comps'|
      ensures comps'[i] !! comps'[j]
    {
      assert comps'[i] == comps[i];
      if j < |comps| {
        assert comps'[j] == comps[j];
      }
    }
  }

  /** Appending a component extends the owner map to its cells. */
  lemma AddComponentOwner(comps: seq<set<Cell>>, marked: set<Cell>, owner: map<Cell, nat>, comp: set<Cell>)
    returns (owner': map<Cell, nat>)
    requires forall c :: c in marked ==> c in owner && owner[c] < |comps| && c in comps[owner[c]]
    ensures forall c :: c in marked + comp ==>
              c in owner' && owner'[c] < |comps + [comp]| && c in (comps + [comp])[owner'[c]]
  {
    owner' := map c | c in marked + comp :: if c in comp then |comps| else owner[c];
    var comps' := comps + [comp];
    forall c | c in marked + comp
      ensures c in owner' && owner'[c] < |comps'| && c in comps'[owner'[c]]
    {
      if c !in comp {
        assert comps'[owner[c]] == comps[owner[c]];
      }
    }
  }

  /** A new component disjoint from the marked cells extends the partition. */
  lemma AddComponent(img: Image, comps: seq<set<Cell>>, roots: seq<Cell>, marked: set<Cell>, owner: map<Cell, nat>,
                     root: Cell)
    returns (owner': map<Cell, nat>)
    requires WellFormed(img) && Partition(img, comps, roots, marked, owner)
    requires root in Component(img, root) && Component(img, root) !! marked
    ensures Partition(img, comps + [Component(img, root)], roots + [root], marked + Component(img, root), owner')
  {
    AddComponentParts(img, comps, roots, marked, root);
    AddComponentDisjoint(comps, marked, Component(img, root));
    owner' := AddComponentOwner(comps, marked, owner, Component(img, root));
  }

  /** The cells a flood fill marks from a fresh root extend the partition by the root's component. */
  lemma ExtendPartition(img: Image, comps: seq<set<Cell>>, roots: seq<Cell>, marked: set<Cell>, owner: map<Cell, nat>,
                        comp: set<Cell>, root: Cell, paths: map<Cell, seq<Cell>>)
    returns (owner': map<Cell, nat>)
    requires WellFormed(img) && Partition(img, comps, roots, marked, owner)
    requires comp !! marked && root in comp && Spans(comp, root, paths)
    requires forall c :: c in comp ==> Solid(img, c)
    requires forall c, n :: c in comp && Adjacent(c, n) && Solid(img, n) ==> n in marked + comp
    ensures Partition(img, comps + [comp], roots + [root], marked + comp, owner')
  {
    FillIsComponent(img, comps, roots, marked, owner, comp, root, paths);
    owner' := AddComponent(img, comps, roots, marked, owner, root);
  }

  /** Distinct components are counted once each. */
  lemma {:induction false} LargeSetCount(comps: seq<set<Cell>>)
    requires forall i, j :: 0 <= i < j < |comps| ==> comps[i] != comps[j]
    ensures |LargeSet(comps)| == LargeCount(comps)
  {
    if comps != [] {
      var init, last := comps[..|comps| - 1], comps[|comps| - 1];
      LargeSetCount(init);
      assert comps == init + [last];
      LargeSetAppend(init, last);
      assert last !in LargeSet(init);
    }
  }

  lemma LargeSetAppend(init: seq<set<Cell>>, last: set<Cell>)
    ensures LargeSet(init + [last]) == LargeSet(init) + (if |last| >= MinIslandSize then {last} else {})
  {
    forall s ensures s in init + [last] <==> s in init || s == last {
    }
  }

  /** Once every solid cell is marked, the large parts are the large components. */
  lemma LargePartsAreLargeComponents(img: Image, comps: seq<set<Cell>>, roots: seq<Cell>, marked: set<Cell>,
                                     owner: map<Cell, nat>)
    requires WellFormed(img) && Partition(img, comps, roots, marked, owner)
    requires forall c :: Solid(img, c) ==> c in marked
    ensures LargeComponents(img) == LargeSet(comps)
  {
    LargeComponentsArePartsOf(img, comps, roots, marked, owner);
    LargePartsAreComponents(img, comps, roots);
  }

  lemma LargeComponentsArePartsOf(img: Image, comps: seq<set<Cell>>, roots: seq<Cell>, marked: set<Cell>,
                                  owner: map<Cell, nat>)
    requires WellFormed(img) && |comps| == |roots|
    requires forall i :: 0 <= i < |comps| ==> comps[i] == Component(img, roots[i])
    requires forall c :: c in marked ==> c in owner && owner[c] < |comps| && c in comps[owner[c]]
    requires forall c :: Solid(img, c) ==> c in marked
    ensures LargeComponents(img) <= LargeSet(comps)
  {
    forall x | x in LargeComponents(img)
      ensures x in LargeSet(comps)
    {
      var c :| c in SolidCells(img) && |Component(img, c)| >= MinIslandSize && x == Component(img, c);
      var k := owner[c];
      ComponentOfMember(img, roots[k], c);
    }
  }

  lemma LargePartsAreComponents(img: Image, comps: seq<set<Cell>>, roots: seq<Cell>)
    requires WellFormed(img) && |comps| == |roots|
    requires forall i :: 0 <= i < |comps| ==> comps[i] == Component(img, roots[i]) && roots[i] in comps[i]
    ensures LargeSet(comps) <= LargeComponents(img)
  {
    forall x | x in LargeSet(comps)
      ensures x in LargeComponents(img)
    {
      var k :| 0 <= k < |comps| && comps[k] == x;
      ComponentSolid(img, roots[k]);
      assert roots[k] in Cells(img) && roots[k] in SolidCells(img);
    }
  }

  /**
   * Once every solid cell is marked, the number of large parts is the
   * number of large components of the image.
   */
  lemma PartitionCountsIslands(img: Image, comps: seq<set<Cell>>, roots: seq<Cell>, marked: set<Cell>,
                               owner: map<Cell, nat>)
    requires WellFormed(img) && Partition(img, comps, roots, marked, owner)
    requires forall c :: Solid(img, c) ==> c in marked
    ensures |LargeComponents(img)| == LargeCount(comps)
  {
    LargePartsAreLargeComponents(img, comps, roots, marked, owner);
    forall i, j | 0 <= i < j < |comps|
      ensures comps[i] != comps[j]
    {
      assert roots[i] in comps[i] && roots[i] !in comps[j];
    }
    LargeSetCount(comps);
  }

  /**
   * Flood-fill from the unvisited solid pixel (x, y) and count the island
   * when it has at least 100 pixels.
   */
  method FillIsland(img: Image, visited: array2<bool>, x: nat, y: nat, islands: nat,
                    ghost comps: seq<set<Cell>>, ghost roots: seq<Cell>, ghost marked: set<Cell>,
                    ghost owner: map<Cell, nat>)
    returns (islands': nat, ghost comps': seq<set<Cell>>, ghost roots': seq<Cell>, ghost marked': set<Cell>,
             ghost owner': map<Cell, nat>)
    requires WellFormed(img) && visited.Length0 == img.height && visited.Length1 == img.width
    requires Solid(img, (x, y)) && (x, y) !in marked
    requires Mirrors(visited, marked) && Partition(img, comps, roots, marked, owner)
    requires islands == LargeCount(comps)
    modifies visited
    ensures Mirrors(visited, marked') && Partition(img, comps', roots', marked', owner')
    ensures islands' == LargeCount(comps')
    ensures marked <= marked' && (x, y) in marked'
  {
    var count, comp, paths := FloodFill(img, visited, (x, y), marked);
    owner' := ExtendPartition(img, comps, roots, marked, owner, comp, (x, y), paths);
    CountIsland(islands, comps, comp, count);
    comps', roots', marked' := comps + [comp], roots + [(x, y)], marked + comp;
    islands' := if count >= MinIslandSize then islands + 1 else islands;
  }

  /**
   * The scan's visit of pixel (x, y): flood-fill from it when it is
   * unvisited and not background.
   */
  method VisitPixel(img: Image, visited: array2<bool>, x: nat, y: nat, islands: nat,
                    ghost comps: seq<set<Cell>>, ghost roots: seq<Cell>, ghost marked: set<Cell>,
                    ghost owner: map<Cell, nat>)
    returns (islands': nat, ghost comps': seq<set<Cell>>, ghost roots': seq<Cell>, ghost marked': set<Cell>,
             ghost owner': map<Cell, nat>)
    requires WellFormed(img) && visited.Length0 == img.height && visited.Length1 == img.width
    requires x < img.width && y < img.height
    requires Mirrors(visited, marked) && Partition(img, comps, roots, marked, owner)
    requires islands == LargeCount(comps)
    modifies visited
    ensures Mirrors(visited, marked') && Partition(img, comps', roots', marked', owner')
    ensures islands' == LargeCount(comps')
    ensures marked <= marked' && (Solid(img, (x, y)) ==> (x, y) in marked')
  {
    if !visited[y, x] && !IsBackground(img.rows[y][x]) {
      islands', comps', roots', marked', owner' := FillIsland(img, visited, x, y, islands, comps, roots, marked, owner);
    } else {
      islands', comps', roots', marked', owner' := islands, comps, roots, marked, owner;
    }
  }

  /** The scan of row `y`: visit its pixels from left to right. */
  method ScanRow(img: Image, visited: array2<bool>, y: nat, islands: nat,
                 ghost comps: seq<set<Cell>>, ghost roots: seq<Cell>, ghost marked: set<Cell>,
                 ghost owner: map<Cell, nat>)
    returns (islands': nat, ghost comps': seq<set<Cell>>, ghost roots': seq<Cell>, ghost marked': set<Cell>,
             ghost owner': map<Cell, nat>)
    requires WellFormed(img) && visited.Length0 == img.height && visited.Length1 == img.width && y < img.height
    requires Mirrors(visited, marked) && Partition(img, comps, roots, marked, owner)
    requires islands == LargeCount(comps)
    modifies visited
    ensures Mirrors(visited, marked') && Partition(img, comps', roots', marked', owner')
    ensures islands' == LargeCount(comps')
    ensures marked <= marked' && forall c :: Solid(img, c) && c.1 == y ==> c in marked'
  {
    islands', comps', roots', marked', owner' := islands, comps, roots, marked, owner;
    for x := 0 to img.width
      invariant Mirrors(visited, marked') && Partition(img, comps', roots', marked', owner')
      invariant islands' == LargeCount(comps')
      invariant marked <= marked' && forall c :: Solid(img, c) && c.1 == y && c.0 < x ==> c in marked'
    {
      ghost var before := marked';
      islands', comps', roots', marked', owner' := VisitPixel(img, visited, x, y, islands', comps', roots', marked', owner');
      forall c | Solid(img, c) && c.1 == y && c.0 < x + 1
        ensures c in marked'
      {
        if c.0 == x {
          assert c == (x, y);
        } else {
          assert c in before;
        }
      }
    }
  }

  /**
   * `count_sprite_islands`: scan the pixels row by row and flood-fill
   * from every unvisited solid pixel; the result is the number of
   * 4-connected components of non-background pixels with at least 100
   * pixels.
   */
  method CountSpriteIslands(img: Image) returns (islands: nat)
    requires WellFormed(img)
    ensures islands == |LargeComponents(img)|
  {
    var visited := new bool[img.height, img.width]((y, x) => false);
    ghost var comps: seq<set<Cell>> := [];
    ghost var roots: seq<Cell> := [];
    ghost var marked: set<Cell> := {};
    ghost var owner: map<Cell, nat> := map[];
    islands := 0;
    for y := 0 to img.height
      invariant Mirrors(visited, marked) && Partition(img, comps, roots, marked, owner)
      invariant islands == LargeCount(comps)
      invariant forall c :: Solid(img, c) && c.1 < y ==> c in marked
    {
      islands, comps, roots, marked, owner := ScanRow(img, visited, y, islands, comps, roots, marked, owner);
    }
    PartitionCountsIslands(img, comps, roots, marked, owner);
  }

  /** Why a sheet is rejected. */
  datatype SheetError = TooSmall(width: nat, height: nat) | WrongIslandCount(found: nat)

  /** The sheet size below which validation fails, in both dimensions. */
  const MinSheetSize: nat := 256

  /** The number of sprites a 4x4 sheet holds. */
  const ExpectedIslands: nat := 16

  /**
   * `validate_sprite_sheet_grid`: a sheet smaller than 256 pixels in
   * either dimension is rejected before counting; otherwise it is valid
   * exactly when it holds 16 large islands.
   */
  method ValidateSheet(img: Image) returns (r: Option<SheetError>)
    requires WellFormed(img)
    ensures (img.width < MinSheetSize || img.height < MinSheetSize) <==> r == Some(TooSmall(img.width, img.height))
    ensures r.None? <==> img.width >= MinSheetSize && img.height >= MinSheetSize
                          && |LargeComponents(img)| == ExpectedIslands
    ensures r.Some? && r.value.WrongIslandCount? ==> r.value.found == |LargeComponents(img)| != ExpectedIslands
  {
    if img.width < MinSheetSize || img.height < MinSheetSize {
      return Some(TooSmall(img.width, img.height));
    }
    var islands := CountSpriteIslands(img);
    if islands != ExpectedIslands {
      return Some(WrongIslandCount(islands));
    }
    return None;
  }
}
