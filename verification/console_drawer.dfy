/**
 * The character-grid rasteriser (`ConsoleDrawer`, console_drawer.py): a
 * height-by-width grid of cells, a DDA line drawer that writes only in-bounds
 * cells, a two-part scanline triangle fill built on it, and the brightness
 * to glyph lookup.
 *
 * A cell holds a Python `str` (the colour written there); coordinates are
 * exact reals, and `int()` and `round()` follow Python (truncation toward
 * zero, round half to even).
 */
module ConsoleDrawer {
  import opened Wrappers
  import opened PyNum

  type Grid = seq<seq<string>>

  /** The drawer's state: the grid and the size it was last given. */
  datatype Drawer = Drawer(surface: Grid, width: int, height: int)

  /** A screen position `(x, y)`. */
  datatype Point2 = Point2(x: real, y: real)

  /** The number of cells `range(n)` yields: none for a negative `n`. */
  function Count(n: int): nat
  {
    if n < 0 then 0 else n
  }

  /** The grid has `height` rows of `width` cells each (as many as `range` yields). */
  predicate WellFormed(d: Drawer)
  {
    && |d.surface| == Count(d.height)
    && forall r | 0 <= r < |d.surface| :: |d.surface[r]| == Count(d.width)
  }

  /** Two grids with the same number of rows and the same row lengths. */
  predicate SameShape(a: Grid, b: Grid)
  {
    |a| == |b| && forall r | 0 <= r < |a| :: |a[r]| == |b[r]|
  }

  /**
   * `after` is `before` with exactly the cells of `cells` (as `(x, y)`, that
   * is column then row) that lie on the grid set to `color`.
   */
  predicate Painted(before: Grid, after: Grid, cells: set<(int, int)>, color: string)
  {
    && SameShape(before, after)
    && forall r, c | 0 <= r < |after| && 0 <= c < |after[r]| ::
         after[r][c] == if (c, r) in cells then color else before[r][c]
  }

  /** Painting S then T with one colour is painting S + T. */
  lemma PaintedTrans(a: Grid, b: Grid, c: Grid, s: set<(int, int)>, t: set<(int, int)>, color: string)
    requires Painted(a, b, s, color) && Painted(b, c, t, color)
    ensures Painted(a, c, s + t, color)
  {
  }

  /** A grid of `height` rows of `width` spaces. */
  function Blank(width: int, height: int): (g: Grid)
    ensures |g| == Count(height)
    ensures forall r | 0 <= r < |g| :: |g[r]| == Count(width) && forall c | 0 <= c < |g[r]| :: g[r][c] == " "
  {
    seq(Count(height), _ => seq(Count(width), _ => " "))
  }

  /** `ConsoleDrawer()`: an empty grid of size 0 by 0. */
  function NewDrawer(): (d: Drawer)
    ensures WellFormed(d) && d.width == 0 && d.height == 0 && d.surface == []
  {
    Drawer([], 0, 0)
  }

  /** `set_size(width, height)`: records the size and starts from a blank grid of it. */
  function SetSize(d: Drawer, width: int, height: int): (r: Drawer)
    ensures WellFormed(r)
    ensures r.width == width && r.height == height
    ensures r.surface == Blank(width, height)
  {
    Drawer(Blank(width, height), width, height)
  }

  /**
   * `clear()`: writes a space into every cell of the `height` by `width`
   * grid, row by row, leaving the size alone.
   */
  method Clear(d: Drawer) returns (r: Drawer)
    requires WellFormed(d)
    ensures WellFormed(r) && r.width == d.width && r.height == d.height
    ensures r.surface == Blank(d.width, d.height)
    ensures r == SetSize(d, d.width, d.height)
  {
    var g := d.surface;
    for i := 0 to Count(d.height)
      invariant SameShape(g, d.surface)
      invariant forall r, c | 0 <= r < i && 0 <= c < |g[r]| :: g[r][c] == " "
    {
      for j := 0 to Count(d.width)
        invariant SameShape(g, d.surface)
        invariant forall r, c | 0 <= r < i && 0 <= c < |g[r]| :: g[r][c] == " "
        invariant forall c | 0 <= c < j :: g[i][c] == " "
      {
        g := g[i := g[i][j := " "]];
      }
    }
    r := d.(surface := g);
    assert forall k | 0 <= k < |g| :: g[k] == Blank(d.width, d.height)[k];
  }

  // ------------------------------------------------------------ draw_line

  /** `abs(int(dx + dy)) + 1`: the number of samples `draw_line` takes. */
  function Steps(p1: Point2, p2: Point2): (n: int)
    ensures n >= 1
  {
    Abs(Trunc((p2.x - p1.x) + (p2.y - p1.y))) + 1
  }

  /** `dx / steps` and `dy / steps`: how far each sample moves. */
  function Increments(p1: Point2, p2: Point2): (real, real)
  {
    var steps := Steps(p1, p2) as real;
    ((p2.x - p1.x) / steps, (p2.y - p1.y) / steps)
  }

  /** `round(start + i * inc)`: one coordinate of sample `i`, as a cell index. */
  function SampleIndex(start: real, inc: real, i: int): int
  {
    Round(start + i as real * inc)
  }

  /** The cell of sample `i`: `(round(x1 + i * x_inc), round(y1 + i * y_inc))`. */
  function Sample(p1: Point2, p2: Point2, i: int): (cell: (int, int))
  {
    var inc := Increments(p1, p2);
    (SampleIndex(p1.x, inc.0, i), SampleIndex(p1.y, inc.1, i))
  }

  /** The increments cover the line: `steps` of them lead from p1 to p2 on each axis. */
  lemma IncrementsCoverLine(p1: Point2, p2: Point2)
    ensures var n, inc := Steps(p1, p2) as real, Increments(p1, p2);
      inc.0 * n == p2.x - p1.x && inc.1 * n == p2.y - p1.y
  {
  }

  /**
   * Sample number `steps` would be the end point p2, rounded; the loop's
   * `range(steps)` stops one sample before it.
   */
  lemma SampleAtStepsIsEnd(p1: Point2, p2: Point2)
    ensures Sample(p1, p2, Steps(p1, p2)) == (Round(p2.x), Round(p2.y))
  {
    var n := Steps(p1, p2);
    var inc := Increments(p1, p2);
    IncrementsCoverLine(p1, p2);
    assert p1.x + n as real * inc.0 == p2.x;
    assert p1.y + n as real * inc.1 == p2.y;
  }

  /** The first sample is the start point, rounded; `draw_line` never divides by zero. */
  lemma FirstSample(p1: Point2, p2: Point2)
    ensures Steps(p1, p2) >= 1
    ensures Sample(p1, p2, 0) == (Round(p1.x), Round(p1.y))
    ensures Sample(p1, p2, 0) in LineCells(p1, p2)
  {
    var inc := Increments(p1, p2);
    assert 0 as real * inc.0 == 0.0 && 0 as real * inc.1 == 0.0;
  }

  /** The cells of the first `k` samples. */
  function SamplesBelow(p1: Point2, p2: Point2, k: int): set<(int, int)>
  {
    set i | 0 <= i < k :: Sample(p1, p2, i)
  }

  /** Every cell the line from `p1` to `p2` samples, on the grid or not. */
  function LineCells(p1: Point2, p2: Point2): set<(int, int)>
  {
    SamplesBelow(p1, p2, Steps(p1, p2))
  }

  /** Writes `color` at `(x, y)` when that cell lies inside the recorded size. */
  function PutCell(d: Drawer, x: int, y: int, color: string): (r: Drawer)
    requires WellFormed(d)
    ensures WellFormed(r) && r.width == d.width && r.height == d.height
    ensures Painted(d.surface, r.surface, if 0 <= x < d.width && 0 <= y < d.height then {(x, y)} else {}, color)
  {
    if 0 <= x < d.width && 0 <= y < d.height then
      d.(surface := d.surface[y := d.surface[y][x := color]])
    else
      d
  }

  /**
   * `draw_line(p1, p2, color)`: steps from `p1` toward `p2` in `Steps`
   * equal increments, rounding each sample to a cell and writing `color`
   * there if the cell is inside the grid. The result is the grid painted on
   * exactly the in-bounds cells of `LineCells`; nothing else changes.
   */
  method DrawLine(d: Drawer, p1: Point2, p2: Point2, color: string) returns (r: Drawer)
    requires WellFormed(d)
    ensures WellFormed(r) && r.width == d.width && r.height == d.height
    ensures Painted(d.surface, r.surface, LineCells(p1, p2), color)
  {
    var dx := p2.x - p1.x;
    var dy := p2.y - p1.y;
    var steps := Steps(p1, p2);
    var xInc := dx / steps as real;
    var yInc := dy / steps as real;
    assert (xInc, yInc) == Increments(p1, p2);
    r := d;
    for i := 0 to steps
      invariant WellFormed(r) && r.width == d.width && r.height == d.height
      invariant Painted(d.surface, r.surface, SamplesBelow(p1, p2, i), color)
    {
      var xIndex := SampleIndex(p1.x, xInc, i);
      var yIndex := SampleIndex(p1.y, yInc, i);
      assert (xIndex, yIndex) == Sample(p1, p2, i);
      r := PaintSample(d, r, p1, p2, i, xIndex, yIndex, color);
    }
  }

  /** One iteration of `draw_line`'s loop: sample `i` is written if it lies on the grid. */
  function PaintSample(d: Drawer, cur: Drawer, p1: Point2, p2: Point2, i: int, x: int, y: int, color: string): (r: Drawer)
    requires WellFormed(cur) && cur.width == d.width && cur.height == d.height
    requires 0 <= i && (x, y) == Sample(p1, p2, i)
    requires Painted(d.surface, cur.surface, SamplesBelow(p1, p2, i), color)
    ensures WellFormed(r) && r.width == d.width && r.height == d.height
    ensures Painted(d.surface, r.surface, SamplesBelow(p1, p2, i + 1), color)
  {
    var next := PutCell(cur, x, y, color);
    SamplesBelowStep(p1, p2, i);
    PaintedTrans(d.surface, cur.surface, next.surface, SamplesBelow(p1, p2, i),
                 if 0 <= x < d.width && 0 <= y < d.height then {(x, y)} else {}, color);
    PaintedSubset(d.surface, next.surface, SamplesBelow(p1, p2, i) + (if 0 <= x < d.width && 0 <= y < d.height then {(x, y)} else {}),
                  SamplesBelow(p1, p2, i + 1), color);
    next
  }

  lemma SamplesBelowStep(p1: Point2, p2: Point2, i: int)
    requires 0 <= i
    ensures SamplesBelow(p1, p2, i + 1) == SamplesBelow(p1, p2, i) + {Sample(p1, p2, i)}
  {
  }

  /** Cells off the grid do not matter: painting agrees on every cell the grid has. */
  lemma PaintedSubset(before: Grid, after: Grid, s: set<(int, int)>, t: set<(int, int)>, color: string)
    requires Painted(before, after, s, color)
    requires forall r, c | 0 <= r < |after| && 0 <= c < |after[r]| :: (c, r) in s <==> (c, r) in t
    ensures Painted(before, after, t, color)
  {
  }

  /** A cell that a paint changes now holds `color` and is in `cells`. */
  lemma PaintedOnlyWritesColor(before: Grid, after: Grid, cells: set<(int, int)>, color: string, r: int, c: int)
    requires Painted(before, after, cells, color)
    requires 0 <= r < |after| && 0 <= c < |after[r]|
    ensures after[r][c] != before[r][c] ==> after[r][c] == color && (c, r) in cells
  {
  }

  /** The five samples of the line from (0, 0) to (4, 0): x steps by 0.8 and rounds to 0, 1, 2, 2, 3. */
  lemma HorizontalSamples()
    ensures Steps(Point2(0.0, 0.0), Point2(4.0, 0.0)) == 5
    ensures Sample(Point2(0.0, 0.0), Point2(4.0, 0.0), 0) == (0, 0)
    ensures Sample(Point2(0.0, 0.0), Point2(4.0, 0.0), 1) == (1, 0)
    ensures Sample(Point2(0.0, 0.0), Point2(4.0, 0.0), 2) == (2, 0)
    ensures Sample(Point2(0.0, 0.0), Point2(4.0, 0.0), 3) == (2, 0)
    ensures Sample(Point2(0.0, 0.0), Point2(4.0, 0.0), 4) == (3, 0)
  {
    var p1, p2 := Point2(0.0, 0.0), Point2(4.0, 0.0);
    assert Trunc(4.0) == 4;
    assert Increments(p1, p2) == (0.8, 0.0);
    assert Round(0.0) == 0 && Round(0.8) == 1 && Round(1.6) == 2 && Round(2.4) == 2 && Round(3.2) == 3;
    assert SampleIndex(0.0, 0.8, 0) == 0 && SampleIndex(0.0, 0.8, 1) == 1 && SampleIndex(0.0, 0.8, 2) == 2;
    assert SampleIndex(0.0, 0.8, 3) == 2 && SampleIndex(0.0, 0.8, 4) == 3;
    assert forall i :: SampleIndex(0.0, 0.0, i) == 0;
  }

  /** The line from (0, 0) to (4, 0) samples columns 0, 1, 2, 2, 3: it stops short of column 4. */
  lemma HorizontalLineExample()
    ensures LineCells(Point2(0.0, 0.0), Point2(4.0, 0.0)) == {(0, 0), (1, 0), (2, 0), (3, 0)}
  {
    var p1, p2 := Point2(0.0, 0.0), Point2(4.0, 0.0);
    HorizontalSamples();
    var s := LineCells(p1, p2);
    assert s == SamplesBelow(p1, p2, 5);
    assert (0, 0) in s by { assert Sample(p1, p2, 0) == (0, 0); }
    assert (1, 0) in s by { assert Sample(p1, p2, 1) == (1, 0); }
    assert (2, 0) in s by { assert Sample(p1, p2, 2) == (2, 0); }
    assert (3, 0) in s by { assert Sample(p1, p2, 4) == (3, 0); }
    forall cell | cell in s
      ensures cell in {(0, 0), (1, 0), (2, 0), (3, 0)}
    {
      var i :| 0 <= i < 5 && Sample(p1, p2, i) == cell;
      assert i == 0 || i == 1 || i == 2 || i == 3 || i == 4;
    }
  }

  // --------------------------------------------------------- fill_triangle

  /**
   * The order `sorted([p1, p2, p3], key=lambda v: v[1])` puts the three
   * vertices in, as indices into the argument list.
   */
  function SortOrder(p: seq<Point2>): (perm: seq<nat>)
    requires |p| == 3
    ensures |perm| == 3 && perm[0] < 3 && perm[1] < 3 && perm[2] < 3
    ensures perm[0] != perm[1] && perm[0] != perm[2] && perm[1] != perm[2]
    ensures p[perm[0]].y <= p[perm[1]].y <= p[perm[2]].y
    ensures p[perm[0]].y == p[perm[1]].y ==> perm[0] < perm[1]
    ensures p[perm[1]].y == p[perm[2]].y ==> perm[1] < perm[2]
    ensures p[perm[0]].y == p[perm[2]].y ==> perm[0] < perm[2]
  {
    if p[0].y <= p[1].y then
      if p[1].y <= p[2].y then [0, 1, 2]
      else if p[0].y <= p[2].y then [0, 2, 1]
      else [2, 0, 1]
    else
      if p[0].y <= p[2].y then [1, 0, 2]
      else if p[1].y <= p[2].y then [1, 2, 0]
      else [2, 1, 0]
  }

  /** `dy`, or 1 when `dy` is 0: how `fill_triangle` avoids a zero divisor. */
  function Divisor(dy: real): (r: real)
    ensures r != 0.0
    ensures dy != 0.0 ==> r == dy
  {
    if dy == 0.0 then 1.0 else dy
  }

  /**
   * `dx / dy` after the substitution of 1 for a zero `dy`: the slope of an
   * edge that rises, and `dx` itself for a flat one.
   */
  function Slope(dx: real, dy: real): (r: real)
    ensures dy == 0.0 ==> r == dx
  {
    if dy == 0.0 then dx else dx / dy
  }

  /** A rising edge's slope times its rise gives back its run. */
  lemma SlopeScales(dx: real, dy: real)
    ensures dy != 0.0 ==> Slope(dx, dy) * dy == dx
  {
  }

  /**
   * The quantities `fill_triangle` derives before it draws: the corners in
   * ascending height and the scanline counts of the two parts. The slopes and
   * the split point mid_2 follow from the corners.
   */
  datatype FillPlan = FillPlan(
    low: Point2, mid1: Point2, high: Point2,
    lowerRows: int,       // int(dy_l_m2 + 1)
    upperRows: int)       // int(dy_m1_h + 1), after the substitution of 1 for 0
  {
    /** r_l_h, the slope of the long edge. */
    function SlopeLowHigh(): real { Slope(high.x - low.x, high.y - low.y) }

    /** r_l_m1, the slope of the lower short edge. */
    function SlopeLowMid(): real { Slope(mid1.x - low.x, mid1.y - low.y) }

    /** r_m1_h, the slope of the upper short edge. */
    function SlopeMidHigh(): real { Slope(high.x - mid1.x, high.y - mid1.y) }

    /** mid_2: the point of the long edge at mid_1's height. */
    function Mid2(): Point2 { Point2(low.x + SlopeLowHigh() * (mid1.y - low.y), mid1.y) }
  }

  /** Exchanging the first two of three elements keeps the multiset. */
  lemma SwapFirst<T>(a: T, b: T, c: T)
    ensures multiset{b, a, c} == multiset{a, b, c}
  {
  }

  /** Exchanging the last two of three elements keeps the multiset. */
  lemma SwapLast<T>(a: T, b: T, c: T)
    ensures multiset{a, c, b} == multiset{a, b, c}
  {
  }

  /** Three distinct indices below 3 pick out the same multiset as the list itself. */
  lemma PermutationOfThree(pts: seq<Point2>, o: seq<nat>)
    requires |pts| == 3 && |o| == 3 && o[0] < 3 && o[1] < 3 && o[2] < 3
    requires o[0] != o[1] && o[0] != o[2] && o[1] != o[2]
    ensures multiset{pts[o[0]], pts[o[1]], pts[o[2]]} == multiset{pts[0], pts[1], pts[2]}
  {
    var i, j, k := o[0], o[1], o[2];
    var a, b, c := pts[0], pts[1], pts[2];
    if i == 0 && j == 1 {
      assert k == 2;
    } else if i == 0 {
      assert j == 2 && k == 1;
      SwapLast(a, b, c);
    } else if i == 1 && j == 0 {
      assert k == 2;
      SwapFirst(a, b, c);
    } else if i == 1 {
      assert j == 2 && k == 0;
      SwapLast(b, a, c);
      SwapFirst(a, b, c);
    } else if j == 0 {
      assert i == 2 && k == 1;
      SwapFirst(a, c, b);
      SwapLast(a, b, c);
    } else {
      assert i == 2 && j == 1 && k == 0;
      SwapFirst(b, c, a);
      SwapLast(b, a, c);
      SwapFirst(a, b, c);
    }
  }

  /**
   * `sorted([p1, p2, p3], key=lambda v: v[1])` as (low, mid_1, high): the same
   * three points, in ascending y, with ties left in argument order.
   */
  function SortByY(p1: Point2, p2: Point2, p3: Point2): (s: (Point2, Point2, Point2))
    ensures s.0.y <= s.1.y <= s.2.y
    ensures var o := SortOrder([p1, p2, p3]); s == ([p1, p2, p3][o[0]], [p1, p2, p3][o[1]], [p1, p2, p3][o[2]])
  {
    var pts := [p1, p2, p3];
    var o := SortOrder(pts);
    (pts[o[0]], pts[o[1]], pts[o[2]])
  }

  /** Sorting keeps the three points: the result is a permutation of the arguments. */
  lemma SortByYPermutes(p1: Point2, p2: Point2, p3: Point2)
    ensures var s := SortByY(p1, p2, p3); multiset{s.0, s.1, s.2} == multiset{p1, p2, p3}
  {
    PermutationOfThree([p1, p2, p3], SortOrder([p1, p2, p3]));
  }

  /** `int(dy + 1)` for a `dy >= 0` is at least one scanline. */
  function Rows(dy: real): (n: int)
    requires dy >= 0.0
    ensures n >= 1 && n as real <= dy + 1.0 < n as real + 1.0
  {
    Trunc(dy + 1.0)
  }

  /**
   * The plan `fill_triangle` draws from: its corners sorted by height and the
   * number of scanlines of each part.
   */
  function Plan(p1: Point2, p2: Point2, p3: Point2): (plan: FillPlan)
    ensures (plan.low, plan.mid1, plan.high) == SortByY(p1, p2, p3)
    ensures plan.lowerRows >= 1 && plan.upperRows >= 1
    ensures plan.lowerRows as real <= plan.mid1.y - plan.low.y + 1.0 < plan.lowerRows as real + 1.0
    ensures plan.high.y != plan.mid1.y ==>
      plan.upperRows as real <= plan.high.y - plan.mid1.y + 1.0 < plan.upperRows as real + 1.0
    ensures plan.high.y == plan.mid1.y ==> plan.upperRows == 2
  {
    var sorted := SortByY(p1, p2, p3);
    var low, mid1, high := sorted.0, sorted.1, sorted.2;
    FillPlan(low, mid1, high, Rows(mid1.y - low.y), Rows(Divisor(high.y - mid1.y)))
  }

  /** Scanline `dy` of the lower part: between the short edge and the long edge. */
  function LowerScan(plan: FillPlan, dy: int): (Point2, Point2)
  {
    var y := plan.low.y + dy as real;
    (Point2(plan.low.x + plan.SlopeLowMid() * dy as real, y), Point2(plan.low.x + plan.SlopeLowHigh() * dy as real, y))
  }

  /** Scanline `dy` of the upper part: from mid_1 and from mid_2 upward. */
  function UpperScan(plan: FillPlan, dy: int): (Point2, Point2)
  {
    var y := plan.mid1.y + dy as real;
    (Point2(plan.mid1.x + plan.SlopeMidHigh() * dy as real, y), Point2(plan.Mid2().x + plan.SlopeLowHigh() * dy as real, y))
  }

  /** `e` lies on the line through `p` and `q` (stated without division). */
  predicate OnLine(p: Point2, q: Point2, e: Point2)
  {
    (e.x - p.x) * (q.y - p.y) == (q.x - p.x) * (e.y - p.y)
  }

  /**
   * The split point mid_2 lies on the long edge from low to high, at mid_1's
   * height: the two parts of the fill meet along the line y = mid_1.y. A flat
   * long edge gets the substituted divisor of 1 and leaves no edge to lie on.
   */
  lemma MidOnLongEdge(plan: FillPlan)
    ensures plan.Mid2().y == plan.mid1.y
    ensures plan.high.y != plan.low.y ==> OnLine(plan.low, plan.high, plan.Mid2())
  {
    Mid2Walk(plan);
    EdgePoint(plan.low, plan.high, plan.mid1.y - plan.low.y);
  }

  /** mid_2 is mid_1.y - low.y rows up the long edge from low. */
  lemma Mid2Walk(plan: FillPlan)
    ensures var d := plan.mid1.y - plan.low.y;
      plan.Mid2() == Point2(plan.low.x + Slope(plan.high.x - plan.low.x, plan.high.y - plan.low.y) * d, plan.low.y + d)
  {
  }

  /**
   * Scanline `dy` of the lower part lies at height low.y + dy and starts on
   * the short edge from low to mid_1, when that edge is not flat.
   */
  lemma LowerScanStartsOnEdge(plan: FillPlan, dy: int)
    ensures LowerScan(plan, dy).0.y == LowerScan(plan, dy).1.y == plan.low.y + dy as real
    ensures plan.mid1.y != plan.low.y ==> OnLine(plan.low, plan.mid1, LowerScan(plan, dy).0)
  {
    EdgePoint(plan.low, plan.mid1, dy as real);
  }

  /** Scanline `dy` of the lower part ends on the long edge from low to high, when that edge is not flat. */
  lemma LowerScanEndsOnLongEdge(plan: FillPlan, dy: int)
    ensures plan.high.y != plan.low.y ==> OnLine(plan.low, plan.high, LowerScan(plan, dy).1)
  {
    EdgePoint(plan.low, plan.high, dy as real);
  }

  /**
   * Scanline `dy` of the upper part lies at height mid_1.y + dy and starts on
   * the short edge from mid_1 to high, when that edge is not flat.
   */
  lemma UpperScanStartsOnEdge(plan: FillPlan, dy: int)
    ensures UpperScan(plan, dy).0.y == UpperScan(plan, dy).1.y == plan.mid1.y + dy as real
    ensures plan.high.y != plan.mid1.y ==> OnLine(plan.mid1, plan.high, UpperScan(plan, dy).0)
  {
    EdgePoint(plan.mid1, plan.high, dy as real);
  }

  /**
   * Scanline `dy` of the upper part ends on the long edge from low to high,
   * which it follows upward from mid_2, when that edge is not flat.
   */
  lemma UpperScanEndsOnLongEdge(plan: FillPlan, dy: int)
    ensures plan.high.y != plan.low.y ==> OnLine(plan.low, plan.high, UpperScan(plan, dy).1)
  {
    UpperScanEnd(plan, dy);
    EdgePointInTwoSteps(plan.low, plan.high, plan.mid1.y - plan.low.y, dy as real);
  }

  /** The end of upper scanline `dy` is mid_1.y - low.y rows and then `dy` more rows up the long edge. */
  lemma UpperScanEnd(plan: FillPlan, dy: int)
    ensures var d, k := plan.mid1.y - plan.low.y, Slope(plan.high.x - plan.low.x, plan.high.y - plan.low.y);
      UpperScan(plan, dy).1 == Point2(plan.low.x + k * d + k * (dy as real), plan.low.y + d + dy as real)
  {
  }

  /** Walking `d` rows and then `t` more rows up the edge from `p` to `q` stays on that edge. */
  lemma EdgePointInTwoSteps(p: Point2, q: Point2, d: real, t: real)
    ensures var k := Slope(q.x - p.x, q.y - p.y);
      q.y != p.y ==> OnLine(p, q, Point2(p.x + k * d + k * t, p.y + d + t))
  {
    var k := Slope(q.x - p.x, q.y - p.y);
    assert Point2(p.x + k * d + k * t, p.y + d + t) == Point2(p.x + k * (d + t), p.y + (d + t));
    EdgePoint(p, q, d + t);
  }

  /**
   * The point `t` rows up from `p` along slope `k` lies on the line through
   * `p` and `q` when `k` is that line's slope.
   */
  lemma OnEdge(p: Point2, q: Point2, k: real, t: real)
    ensures k * (q.y - p.y) == q.x - p.x ==> OnLine(p, q, Point2(p.x + k * t, p.y + t))
  {
    assert (k * t) * (q.y - p.y) == (k * (q.y - p.y)) * t;
  }

  /** Walking `t` rows up from `p` at the slope of the edge to `q` stays on that edge. */
  lemma EdgePoint(p: Point2, q: Point2, t: real)
    ensures q.y != p.y ==> OnLine(p, q, Point2(p.x + Slope(q.x - p.x, q.y - p.y) * t, p.y + t))
  {
    SlopeScales(q.x - p.x, q.y - p.y);
    OnEdge(p, q, Slope(q.x - p.x, q.y - p.y), t);
  }

  /** The cells the first `k` scanlines of one part sample. */
  function ScanCells(plan: FillPlan, upper: bool, k: int): set<(int, int)>
    decreases k
  {
    if k <= 0 then {}
    else
      var scan := if upper then UpperScan(plan, k - 1) else LowerScan(plan, k - 1);
      ScanCells(plan, upper, k - 1) + LineCells(scan.0, scan.1)
  }

  /** Every cell the fill of triangle (p1, p2, p3) samples, on the grid or not. */
  function FillCells(p1: Point2, p2: Point2, p3: Point2): set<(int, int)>
  {
    var plan := Plan(p1, p2, p3);
    ScanCells(plan, false, plan.lowerRows) + ScanCells(plan, true, plan.upperRows)
  }

  /**
   * `fill_triangle(p1, p2, p3, color)`: sorts the vertices by y, then draws
   * the horizontal scanlines of the lower part and of the upper part with
   * `draw_line`. The grid changes only through those lines: exactly the
   * in-bounds cells of `FillCells` are set to `color`.
   */
  method FillTriangle(d: Drawer, p1: Point2, p2: Point2, p3: Point2, color: string) returns (r: Drawer)
    requires WellFormed(d)
    ensures WellFormed(r) && r.width == d.width && r.height == d.height
    ensures Painted(d.surface, r.surface, FillCells(p1, p2, p3), color)
  {
    var plan := Plan(p1, p2, p3);
    r := d;
    for dy := 0 to plan.lowerRows
      invariant WellFormed(r) && r.width == d.width && r.height == d.height
      invariant Painted(d.surface, r.surface, ScanCells(plan, false, dy), color)
    {
      var scan := LowerScan(plan, dy);
      var before := r;
      r := DrawLine(r, scan.0, scan.1, color);
      PaintedTrans(d.surface, before.surface, r.surface, ScanCells(plan, false, dy), LineCells(scan.0, scan.1), color);
    }
    var middle := r;
    for dy := 0 to plan.upperRows
      invariant WellFormed(r) && r.width == d.width && r.height == d.height
      invariant Painted(middle.surface, r.surface, ScanCells(plan, true, dy), color)
    {
      var scan := UpperScan(plan, dy);
      var before := r;
      r := DrawLine(r, scan.0, scan.1, color);
      PaintedTrans(middle.surface, before.surface, r.surface, ScanCells(plan, true, dy), LineCells(scan.0, scan.1), color);
    }
    PaintedTrans(d.surface, middle.surface, r.surface, ScanCells(plan, false, plan.lowerRows),
                 ScanCells(plan, true, plan.upperRows), color);
  }

  /**
   * The substitution of 1 for a zero height makes the upper part of a flat
   * triangle two scanlines tall: a triangle squeezed into the single point
   * (0, 0) fills that cell and the one below it.
   */
  lemma PointTriangleExample()
    ensures FillCells(Point2(0.0, 0.0), Point2(0.0, 0.0), Point2(0.0, 0.0)) == {(0, 0), (0, 1)}
  {
    var o := Point2(0.0, 0.0);
    assert SortByY(o, o, o) == (o, o, o);
    assert Rows(0.0) == 1 && Rows(Divisor(0.0)) == 2;
    var plan := FillPlan(o, o, o, 1, 2);
    assert Plan(o, o, o) == plan;
    assert Slope(0.0, 0.0) == 0.0;
    assert plan.SlopeLowHigh() == 0.0 && plan.SlopeLowMid() == 0.0 && plan.SlopeMidHigh() == 0.0;
    assert plan.Mid2() == o;
    assert LowerScan(plan, 0) == (o, o);
    assert UpperScan(plan, 0) == (o, o);
    assert UpperScan(plan, 1) == (Point2(0.0, 1.0), Point2(0.0, 1.0));
    SinglePointLine(0.0, 0.0);
    SinglePointLine(0.0, 1.0);
    assert ScanCells(plan, false, 1) == {(0, 0)};
    assert ScanCells(plan, true, 1) == {(0, 0)};
    assert ScanCells(plan, true, 2) == {(0, 0), (0, 1)};
  }

  /** A line from a point to itself samples just that point's cell. */
  lemma SinglePointLine(x: real, y: real)
    ensures LineCells(Point2(x, y), Point2(x, y)) == {(Round(x), Round(y))}
  {
    var p := Point2(x, y);
    assert Steps(p, p) == 1;
    assert Sample(p, p, 0) == (Round(x), Round(y));
  }

  // ------------------------------------------------------------ brightness

  /** The glyph ramp, densest first: 69 characters, written in blocks of ten. */
  const Ramp: string :=
    "$@B%8&WM#*" + "oahkbdpqwm" + "ZO0QLCJUYX" + "zcvunxrjft" + "/\\|()1{}[]" + "?-_+~<>i!l" + "I;:,\"^`'."

  /**
   * `get_char_by_brightness(b)`: `chars[-int(len(chars) * b)]`, with
   * Python's wrap-around for negative indices and IndexError past either end.
   */
  function CharByBrightness(b: real): (r: Result<char>)
    ensures r.Success? <==> -|Ramp| < RampSteps(b) <= |Ramp|
    ensures r.Success? ==> r.value in Ramp
  {
    PyIndex(Ramp, -RampSteps(b))
  }

  /** The ramp's length and its densest glyph. */
  lemma RampShape()
    ensures |Ramp| == 69 && Ramp[0] == '$'
  {
    assert Ramp[..10] == "$@B%8&WM#*";
  }

  /** The share of the ramp a brightness selects: `int(len(chars) * b)`. */
  function RampSteps(b: real): int
  {
    Trunc(|Ramp| as real * b)
  }

  /**
   * For a brightness in [0, 1] the lookup never fails and yields the glyph
   * `int(69 * b)` places from the END of the ramp, wrapping round to the
   * first glyph when that count is 0 or 69.
   */
  lemma BrightnessInRange(b: real)
    requires 0.0 <= b <= 1.0
    ensures |Ramp| == 69 && 0 <= RampSteps(b) <= 69
    ensures CharByBrightness(b).Success?
    ensures CharByBrightness(b).value == Ramp[(69 - RampSteps(b)) % 69]
  {
    RampShape();
    RampStepsBounds(b);
    NegativeIndexWraps(Ramp, 69, RampSteps(b));
  }

  /** Python's `s[-t]` for `0 <= t <= n`, where `n = len(s)`, reads `s[(n - t) % n]`. */
  lemma NegativeIndexWraps<T>(s: seq<T>, n: int, t: int)
    requires |s| == n && 0 < n && 0 <= t <= n
    ensures PyIndex(s, -t) == Success(s[(n - t) % n])
  {
    if t == 0 {
      assert (n - t) % n == 0;
    } else {
      assert (n - t) % n == n - t;
    }
  }

  /** A brightness in [0, 1] selects between 0 and 69 steps of the ramp. */
  lemma RampStepsBounds(b: real)
    requires 0.0 <= b <= 1.0
    ensures 0 <= RampSteps(b) <= 69
  {
    RampShape();
    var x := |Ramp| as real * b;
    assert x == 69.0 * b;
    assert 0.0 <= x <= 69.0;
  }

  /** Both ends of the brightness range give the densest glyph, '$'. */
  lemma BrightnessEnds()
    ensures CharByBrightness(0.0) == Success('$')
    ensures CharByBrightness(1.0) == Success('$')
  {
    RampShape();
    assert RampSteps(0.0) == 0 by { assert |Ramp| as real * 0.0 == 0.0; }
    assert RampSteps(1.0) == 69 by { assert |Ramp| as real * 1.0 == 69.0; }
    assert PyIndex(Ramp, 0) == Success(Ramp[0]);
    assert PyIndex(Ramp, -69) == Success(Ramp[|Ramp| - 69]);
  }

  /** Away from 0, a brighter value never picks a sparser (later) glyph. */
  lemma BrighterIsDenser(b1: real, b2: real)
    requires 1.0 / 69.0 <= b1 <= b2 <= 1.0
    ensures (69 - RampSteps(b2)) % 69 <= 69 - RampSteps(b1) < 69
  {
    assert |Ramp| as real * b1 <= |Ramp| as real * b2 <= |Ramp| as real;
    assert 1.0 <= |Ramp| as real * b1;
  }
}
