/**
 * Picking the four directional frames out of a 4x4 sprite sheet, finding
 * the content pixels of a sprite cell, and ordering the image models to
 * try. The direction detector and the quality score are heuristics over
 * the cropped image; here they are parameters, given the crop box.
 */
module SpriteFrames {
  import opened Wrappers
  import opened Raster
  import opened SpriteColours

  // ---------------------------------------------------------------------
  // Content pixels of a sprite cell
  // ---------------------------------------------------------------------

  /** `a` comes strictly before `b` in row-major order. */
  predicate Before(a: Cell, b: Cell)
  {
    a.1 < b.1 || (a.1 == b.1 && a.0 < b.0)
  }

  /** The positions are listed in strictly increasing row-major order. */
  predicate RowMajor(s: seq<Cell>)
  {
    forall i, j :: 0 <= i < j < |s| ==> Before(s[i], s[j])
  }

  /** An in-bounds position whose colour is not background. */
  predicate Content(img: Image, c: Cell)
    requires WellFormed(img)
  {
    0 <= c.0 < img.width && 0 <= c.1 < img.height && !IsBackground(img.rows[c.1][c.0])
  }

  /**
   * `get_sprite_pixels`: every non-background position, each once, in
   * row-major order (alpha is not looked at).
   */
  method GetSpritePixels(img: Image) returns (content: seq<Cell>)
    requires WellFormed(img)
    ensures forall c :: c in content <==> Content(img, c)
    ensures RowMajor(content)
  {
    content := [];
    for y := 0 to img.height
      invariant forall c :: c in content <==> Content(img, c) && c.1 < y
      invariant RowMajor(content)
    {
      for x := 0 to img.width
        invariant forall c :: c in content <==> Content(img, c) && (c.1 < y || (c.1 == y && c.0 < x))
        invariant RowMajor(content)
      {
        if !IsBackground(img.rows[y][x]) {
          content := content + [(x, y)];
        }
      }
    }
  }

  /**
   * Membership and row-major order determine the list: two row-major
   * lists with the same positions are equal, so the contract of
   * `GetSpritePixels` fixes its result completely.
   */
  lemma {:induction false} RowMajorUnique(s: seq<Cell>, t: seq<Cell>)
    requires RowMajor(s) && RowMajor(t)
    requires forall c :: c in s <==> c in t
    ensures s == t
  {
    if |s| + |t| > 0 {
      assert |s| > 0 ==> s[0] in s;
      assert |t| > 0 ==> t[0] in t;
      assert |s| > 0 && |t| > 0;
      assert s[0] == t[0];
      forall c
        ensures c in s[1..] <==> c in t[1..]
      {
        if c in s[1..] {
          var i :| 1 <= i < |s| && s[i] == c;
          assert Before(s[0], c);
          assert c in s;
          var j :| 0 <= j < |t| && t[j] == c;
          assert j != 0;
          assert t[1..][j - 1] == c;
        }
        if c in t[1..] {
          var j :| 1 <= j < |t| && t[j] == c;
          assert Before(t[0], c);
          assert c in t;
          var i :| 0 <= i < |s| && s[i] == c;
          assert i != 0;
          assert s[1..][i - 1] == c;
        }
      }
      RowMajorUnique(s[1..], t[1..]);
    }
  }

  // ---------------------------------------------------------------------
  // The 4x4 survey of the sheet
  // ---------------------------------------------------------------------

  const GridCols: nat := 4
  const GridRows: nat := 4

  /** The four directions, in the order of the rows of the sheet. */
  const ViewNames: seq<string> := ["front", "left", "right", "back"]

  /** A crop rectangle `(left, top, right, bottom)`. */
  datatype Box = Box(left: nat, top: nat, right: nat, bottom: nat)

  /** One surveyed cell with its detected direction and scores. */
  datatype Candidate = Candidate(row: nat, col: nat, box: Box, direction: string,
                                 confidence: real, quality: real, combined: real)

  /** The crop rectangle of the cell in `row`, `col` of a `width` x `height` sheet. */
  function CellBox(width: nat, height: nat, row: nat, col: nat): Box
  {
    var cw := width / GridCols;
    var ch := height / GridRows;
    Box(col * cw, row * ch, (col + 1) * cw, (row + 1) * ch)
  }

  /** Every cell of the grid lies inside the sheet and has size (width div 4, height div 4). */
  lemma CellBoxInside(width: nat, height: nat, row: nat, col: nat)
    requires row < GridRows && col < GridCols
    ensures var b := CellBox(width, height, row, col);
            b.right <= width && b.bottom <= height
            && b.right - b.left == width / GridCols && b.bottom - b.top == height / GridRows
  {
    var cw := width / GridCols;
    var ch := height / GridRows;
    assert (col + 1) * cw <= GridCols * cw;
    assert (row + 1) * ch <= GridRows * ch;
  }

  /** Two different cells of the grid do not overlap. */
  lemma CellBoxesDisjoint(width: nat, height: nat, r1: nat, c1: nat, r2: nat, c2: nat)
    requires (r1, c1) != (r2, c2)
    requires width >= GridCols && height >= GridRows
    ensures var a := CellBox(width, height, r1, c1);
            var b := CellBox(width, height, r2, c2);
            a.right <= b.left || b.right <= a.left || a.bottom <= b.top || b.bottom <= a.top
  {
    var cw := width / GridCols;
    var ch := height / GridRows;
    if c1 < c2 {
      assert (c1 + 1) * cw <= c2 * cw;
    } else if c2 < c1 {
      assert (c2 + 1) * cw <= c1 * cw;
    } else if r1 < r2 {
      assert (r1 + 1) * ch <= r2 * ch;
    } else {
      assert (r2 + 1) * ch <= r1 * ch;
    }
  }

  /** The weighting of `combined_score`. */
  function Combined(confidence: real, quality: real): real
  {
    confidence * 0.6 + quality * 0.4
  }

  /** The record made for one cell. */
  function SurveyCell(width: nat, height: nat, detect: Box -> (string, real), quality: Box -> real,
                      row: nat, col: nat): Candidate
  {
    var box := CellBox(width, height, row, col);
    var (direction, confidence) := detect(box);
    Candidate(row, col, box, direction, confidence, quality(box), Combined(confidence, quality(box)))
  }

  /** The records of a survey sit in row-major order: entry `i` is row `i div 4`, column `i mod 4`. */
  predicate Laid(all: seq<Candidate>)
  {
    |all| == GridRows * GridCols
    && forall i :: 0 <= i < |all| ==> all[i].row == i / GridCols && all[i].col == i % GridCols
  }

  /** All 16 cells, row by row. */
  function Survey(width: nat, height: nat, detect: Box -> (string, real), quality: Box -> real): (all: seq<Candidate>)
    ensures Laid(all)
  {
    seq(GridRows * GridCols, i requires 0 <= i < GridRows * GridCols =>
      SurveyCell(width, height, detect, quality, i / GridCols, i % GridCols))
  }

  /** The cells detected as facing `d`, in survey order. */
  function WithDirection(s: seq<Candidate>, d: string): (r: seq<Candidate>)
    ensures forall c :: c in r <==> c in s && c.direction == d
  {
    if |s| == 0 then []
    else (if s[0].direction == d then [s[0]] else []) + WithDirection(s[1..], d)
  }

  /** Grouping appends: the group of a longer survey extends the group of its prefix. */
  lemma {:induction false} WithDirectionAppend(s: seq<Candidate>, x: Candidate, d: string)
    ensures WithDirection(s + [x], d) == WithDirection(s, d) + (if x.direction == d then [x] else [])
  {
    if |s| == 0 {
      assert s + [x] == [x];
      assert WithDirection([x], d) == (if x.direction == d then [x] else []) + WithDirection([], d);
    } else {
      assert (s + [x])[1..] == s[1..] + [x];
      WithDirectionAppend(s[1..], x, d);
    }
  }

  /** The cells of one row, in survey order. */
  function InRow(s: seq<Candidate>, row: nat): (r: seq<Candidate>)
    ensures forall c :: c in r <==> c in s && c.row == row
  {
    if |s| == 0 then []
    else (if s[0].row == row then [s[0]] else []) + InRow(s[1..], row)
  }

  /** The first cell of a row is the first entry of the survey in that row. */
  lemma {:induction false} InRowFirst(s: seq<Candidate>, row: nat, k: nat)
    requires k < |s| && s[k].row == row
    requires forall j :: 0 <= j < k ==> s[j].row != row
    ensures |InRow(s, row)| > 0 && InRow(s, row)[0] == s[k]
  {
    if k > 0 {
      InRowFirst(s[1..], row, k - 1);
    }
  }

  /**
   * Python's `max(candidates, key=combined)`: the index of the first
   * entry with the highest combined score (a later entry replaces the
   * current best only when it scores strictly higher).
   */
  function BestIndex(s: seq<Candidate>): (i: nat)
    requires |s| > 0
    ensures i < |s|
    ensures forall j :: 0 <= j < |s| ==> s[j].combined <= s[i].combined
    ensures forall j :: 0 <= j < i ==> s[j].combined < s[i].combined
  {
    if |s| == 1 then 0
    else
      var b := BestIndex(s[..|s| - 1]);
      if s[|s| - 1].combined > s[b].combined then |s| - 1 else b
  }

  /** The frame chosen for direction number `d`. */
  function Choose(all: seq<Candidate>, d: nat): Candidate
    requires Laid(all) && d < |ViewNames|
  {
    var candidates := WithDirection(all, ViewNames[d]);
    if |candidates| > 0 then candidates[BestIndex(candidates)]
    else
      InRowFirst(all, d, GridCols * d);
      InRow(all, d)[0]
  }

  /** The four frames, front, left, right, back. */
  function BestFrames(all: seq<Candidate>): (frames: seq<Box>)
    requires Laid(all)
    ensures |frames| == |ViewNames|
  {
    seq(|ViewNames|, d requires 0 <= d < |ViewNames| => Choose(all, d).box)
  }

  /**
   * `extract_best_sprites`: survey the 16 cells in row-major order, group
   * them by detected direction (directions other than the four are
   * dropped), and for each direction take the first cell with the highest
   * combined score, or the first cell of that direction's row when no cell
   * was detected as facing it.
   */
  method ExtractBestSprites(width: nat, height: nat, detect: Box -> (string, real), quality: Box -> real)
    returns (frames: seq<Box>)
    ensures frames == BestFrames(Survey(width, height, detect, quality))
  {
    var all := SurveySheet(width, height, detect, quality);
    var byDirection := GroupByDirection(all);
    frames := PickFrames(all, byDirection);
  }

  /** The selection loop of `extract_best_sprites`: one frame per view name, in order. */
  method PickFrames(all: seq<Candidate>, byDirection: map<string, seq<Candidate>>) returns (frames: seq<Box>)
    requires Laid(all)
    requires forall v :: v in byDirection <==> v in ViewNames
    requires forall v :: v in byDirection ==> byDirection[v] == WithDirection(all, v)
    ensures frames == BestFrames(all)
  {
    frames := [];
    ghost var best := BestFrames(all);
    for d := 0 to |ViewNames|
      invariant frames == best[..d]
    {
      var box := PickFrame(all, byDirection, d);
      PrefixStep(best, d);
      frames := frames + [box];
    }
    assert best[..|ViewNames|] == best;
  }

  lemma PrefixStep<T>(s: seq<T>, d: nat)
    requires d < |s|
    ensures s[..d + 1] == s[..d] + [s[d]]
  {
  }

  /** The selection step of `extract_best_sprites` for direction number `d`. */
  method PickFrame(all: seq<Candidate>, byDirection: map<string, seq<Candidate>>, d: nat) returns (box: Box)
    requires Laid(all) && d < |ViewNames|
    requires forall v :: v in byDirection <==> v in ViewNames
    requires forall v :: v in byDirection ==> byDirection[v] == WithDirection(all, v)
    ensures box == Choose(all, d).box
  {
    assert ViewNames[d] in ViewNames;
    var candidates := byDirection[ViewNames[d]];
    if |candidates| > 0 {
      var best := candidates[BestIndex(candidates)];
      box := best.box;
    } else {
      InRowFirst(all, d, GridCols * d);
      var fallback := InRow(all, d)[0];
      box := fallback.box;
    }
  }

  /** The first loop of `extract_best_sprites`: crop, detect and score the 16 cells row by row. */
  method SurveySheet(width: nat, height: nat, detect: Box -> (string, real), quality: Box -> real)
    returns (all: seq<Candidate>)
    ensures all == Survey(width, height, detect, quality)
  {
    ghost var survey := Survey(width, height, detect, quality);
    var cellWidth := width / GridCols;
    var cellHeight := height / GridRows;
    all := [];
    for row := 0 to GridRows
      invariant all == survey[..row * GridCols]
    {
      for col := 0 to GridCols
        invariant all == survey[..row * GridCols + col]
      {
        var box := Box(col * cellWidth, row * cellHeight, (col + 1) * cellWidth, (row + 1) * cellHeight);
        var (direction, confidence) := detect(box);
        var score := quality(box);
        all := all + [Candidate(row, col, box, direction, confidence, score, Combined(confidence, score))];
        assert survey[row * GridCols + col] == SurveyCell(width, height, detect, quality, row, col);
        assert survey[..row * GridCols + col + 1] == survey[..row * GridCols + col] + [survey[row * GridCols + col]];
      }
    }
  }

  /**
   * The grouping loop of `extract_best_sprites`: one list per direction
   * name, each holding the cells detected as facing it in survey order;
   * cells with any other direction are dropped.
   */
  method GroupByDirection(all: seq<Candidate>) returns (byDirection: map<string, seq<Candidate>>)
    ensures forall d :: d in byDirection <==> d in ViewNames
    ensures forall d :: d in byDirection ==> byDirection[d] == WithDirection(all, d)
  {
    byDirection := map["front" := [], "left" := [], "right" := [], "back" := []];
    for i := 0 to |all|
      invariant forall d :: d in byDirection <==> d in ViewNames
      invariant forall d :: d in byDirection ==> byDirection[d] == WithDirection(all[..i], d)
    {
      var sprite := all[i];
      assert all[..i + 1] == all[..i] + [sprite];
      forall d | d in byDirection
        ensures WithDirection(all[..i + 1], d) == WithDirection(all[..i], d) + (if sprite.direction == d then [sprite] else [])
      {
        WithDirectionAppend(all[..i], sprite, d);
      }
      if sprite.direction in byDirection {
        byDirection := byDirection[sprite.direction := byDirection[sprite.direction] + [sprite]];
      }
    }
    assert all[..|all|] == all;
  }

  /** The survey crops cell `(row, col)` of the grid at position `4 * row + col`. */
  lemma SurveyLayout(width: nat, height: nat, detect: Box -> (string, real), quality: Box -> real, row: nat, col: nat)
    requires row < GridRows && col < GridCols
    ensures var c := Survey(width, height, detect, quality)[GridCols * row + col];
            c.row == row && c.col == col && c.box == CellBox(width, height, row, col)
            && c.combined == 0.6 * c.confidence + 0.4 * c.quality
  {
    var i := GridCols * row + col;
    assert i / GridCols == row && i % GridCols == col;
  }

  /**
   * What frame `d` is: when some cell was detected as facing direction
   * `d`, the frame is such a cell with the highest combined score, and
   * every such cell before it scores strictly lower; otherwise it is the
   * first cell of row `d`, i.e. the cell in column 0.
   */
  lemma ChooseProperties(all: seq<Candidate>, d: nat)
    requires Laid(all) && d < |ViewNames|
    ensures var f := Choose(all, d);
            f in all
            && ((exists c :: c in all && c.direction == ViewNames[d]) ==>
                  f.direction == ViewNames[d]
                  && (forall i :: 0 <= i < |all| && all[i].direction == ViewNames[d] ==> all[i].combined <= f.combined))
            && ((forall c :: c in all ==> c.direction != ViewNames[d]) ==> f == all[GridCols * d] && f.row == d && f.col == 0)
  {
    var candidates := WithDirection(all, ViewNames[d]);
    if |candidates| > 0 {
      var b := BestIndex(candidates);
      assert candidates[b] in candidates;
      forall i | 0 <= i < |all| && all[i].direction == ViewNames[d]
        ensures all[i].combined <= candidates[b].combined
      {
        assert all[i] in candidates;
        var j :| 0 <= j < |candidates| && candidates[j] == all[i];
      }
    } else {
      InRowFirst(all, d, GridCols * d);
    }
  }

  /** Within one direction's group, no cell before the chosen one reaches its score. */
  lemma ChooseIsFirstBest(all: seq<Candidate>, d: nat)
    requires Laid(all) && d < |ViewNames|
    requires |WithDirection(all, ViewNames[d])| > 0
    ensures var candidates := WithDirection(all, ViewNames[d]);
            exists k :: 0 <= k < |candidates| && candidates[k] == Choose(all, d)
                        && forall j :: 0 <= j < k ==> candidates[j].combined < candidates[k].combined
  {
    var candidates := WithDirection(all, ViewNames[d]);
    var k := BestIndex(candidates);
    assert candidates[k] == Choose(all, d);
  }

  // ---------------------------------------------------------------------
  // Order of the image models to try
  // ---------------------------------------------------------------------

  const GoogleModels: seq<string> := ["gemini-3-pro-image-preview", "gemini-2.5-flash-image", "gemini-2.0-flash-exp"]

  /** No model appears twice. */
  predicate Distinct(s: seq<string>)
  {
    forall i, j :: 0 <= i < j < |s| ==> s[i] != s[j]
  }

  /** `a` is `b` with some entries dropped and the rest in their order. */
  predicate Subsequence(a: seq<string>, b: seq<string>)
  {
    if |a| == 0 then true
    else if |b| == 0 then false
    else if a[0] == b[0] then Subsequence(a[1..], b[1..])
    else Subsequence(a, b[1..])
  }

  /** `[m for m in s if m != x]`. */
  function Without(s: seq<string>, x: string): (r: seq<string>)
    ensures forall m :: m in r <==> m in s && m != x
  {
    if |s| == 0 then []
    else (if s[0] == x then [] else [s[0]]) + Without(s[1..], x)
  }

  /** Dropping a model keeps the others in their order and keeps them distinct. */
  lemma {:induction false} WithoutOrder(s: seq<string>, x: string)
    ensures Subsequence(Without(s, x), s)
    ensures Distinct(s) ==> Distinct(Without(s, x))
  {
    if |s| > 0 {
      WithoutOrder(s[1..], x);
      var rest := Without(s[1..], x);
      if s[0] != x {
        assert Without(s, x) == [s[0]] + rest;
        assert ([s[0]] + rest)[1..] == rest;
        if Distinct(s) {
          assert s[0] !in s[1..];
          assert s[0] !in rest;
          forall i, j | 0 <= i < j < |[s[0]] + rest|
            ensures ([s[0]] + rest)[i] != ([s[0]] + rest)[j]
          {
            if i == 0 {
              assert ([s[0]] + rest)[j] == rest[j - 1];
            }
          }
        }
      } else {
        assert Without(s, x) == rest;
        SubsequenceSkip(rest, s);
      }
    }
  }

  /** A subsequence of the tail is a subsequence of the whole. */
  lemma {:induction false} SubsequenceSkip(a: seq<string>, b: seq<string>)
    requires |b| > 0 && Subsequence(a, b[1..])
    ensures Subsequence(a, b)
  {
    if |a| > 0 && a[0] == b[0] {
      SubsequenceTail(a, b[1..]);
    }
  }

  /** Dropping the head of a subsequence keeps it a subsequence. */
  lemma {:induction false} SubsequenceTail(a: seq<string>, b: seq<string>)
    requires |a| > 0 && Subsequence(a, b)
    ensures Subsequence(a[1..], b)
  {
    assert |b| > 0;
    if a[0] == b[0] {
      if |a[1..]| > 0 {
        SubsequenceSkip(a[1..], b);
      }
    } else {
      SubsequenceTail(a, b[1..]);
      if |a[1..]| > 0 {
        SubsequenceSkip(a[1..], b);
      }
    }
  }

  /**
   * The models to try: the preferred one first and then the others of
   * `GoogleModels` without it; no preference (or an empty name) means
   * `GoogleModels` as it is.
   */
  function ModelsToTry(preferred: Option<string>): (models: seq<string>)
    ensures forall m :: m in models <==> m in GoogleModels || (preferred.Some? && preferred.value != "" && m == preferred.value)
  {
    if preferred.Some? && preferred.value != "" then [preferred.value] + Without(GoogleModels, preferred.value)
    else GoogleModels
  }

  /**
   * The preferred model (when given) is tried first, the remaining default
   * models follow in their original order, and no model is tried twice.
   */
  lemma ModelsToTryOrder(preferred: Option<string>)
    ensures var models := ModelsToTry(preferred);
            Distinct(models)
            && (preferred.Some? && preferred.value != "" ==>
                  models[0] == preferred.value && Subsequence(models[1..], GoogleModels)
                  && |models| == |GoogleModels| + (if preferred.value in GoogleModels then 0 else 1))
            && (preferred.None? || preferred.value == "" ==> models == GoogleModels)
  {
    assert Distinct(GoogleModels);
    if preferred.Some? && preferred.value != "" {
      var p := preferred.value;
      WithoutOrder(GoogleModels, p);
      var rest := Without(GoogleModels, p);
      assert ([p] + rest)[1..] == rest;
      forall i, j | 0 <= i < j < |[p] + rest|
        ensures ([p] + rest)[i] != ([p] + rest)[j]
      {
        if i == 0 {
          assert ([p] + rest)[j] == rest[j - 1];
          assert rest[j - 1] in rest;
        }
      }
      WithoutLength(GoogleModels, p);
    }
  }

  /** Dropping a model from a list without repeats shortens it by one exactly when it was there. */
  lemma {:induction false} WithoutLength(s: seq<string>, x: string)
    requires Distinct(s)
    ensures |Without(s, x)| == |s| - (if x in s then 1 else 0)
  {
    if |s| > 0 {
      assert Distinct(s[1..]) by {
        forall i, j | 0 <= i < j < |s[1..]|
          ensures s[1..][i] != s[1..][j]
        {
          assert s[1..][i] == s[i + 1] && s[1..][j] == s[j + 1];
        }
      }
      WithoutLength(s[1..], x);
      if s[0] == x {
        assert x !in s[1..];
      } else {
        assert x in s <==> x in s[1..];
      }
    }
  }
}
