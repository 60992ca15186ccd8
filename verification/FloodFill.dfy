/** The flood fill that finds what lies outside an icon: breadth first, from the border inwards. */
module FloodFill {
  // --- the picture -----------------------------------------------------------------------

  /** Row after row, whether a pixel belongs to the coloured shape. */
  datatype Grid = Grid(width: nat, height: nat, solid: seq<bool>) {
    predicate Valid() {
      |solid| == Area(width, height) && (width == 0 <==> height == 0)
    }
  }

  datatype Cell = Cell(x: int, y: int)

  predicate In(g: Grid, c: Cell) {
    0 <= c.x < g.width && 0 <= c.y < g.height
  }

  /** The product of the sides, row by row. */
  function Area(width: nat, height: nat): (n: nat) {
    if height == 0 then 0 else Area(width, height - 1) + width
  }

  lemma {:induction false} AreaIsProduct(width: nat, height: nat)
    ensures Area(width, height) == height * width
  {
    if height > 0 {
      AreaIsProduct(width, height - 1);
      assert (height - 1) * width + width == height * width;
    }
  }

  /** Where a cell is in the rows one after another. */
  function At(g: Grid, c: Cell): (i: nat)
    requires In(g, c)
    ensures i < Area(g.width, g.height)
  {
    RowsFit(g.width, c.y, g.height);
    Area(g.width, c.y) + c.x
  }

  lemma {:induction false} RowsFit(width: nat, y: nat, height: nat)
    requires y < height
    ensures Area(width, y) + width <= Area(width, height)
  {
    if y + 1 < height {
      RowsFit(width, y, height - 1);
    }
  }

  lemma CellsApart(g: Grid, c: Cell, d: Cell)
    requires In(g, c) && In(g, d) && c != d
    ensures At(g, c) != At(g, d)
  {
    if c.y < d.y {
      RowsFit(g.width, c.y, d.y);
    } else if d.y < c.y {
      RowsFit(g.width, d.y, c.y);
    }
  }

  predicate Open(g: Grid, c: Cell)
    requires g.Valid()
  {
    In(g, c) && !g.solid[At(g, c)]
  }

  predicate Border(g: Grid, c: Cell) {
    c.x == 0 || c.x == g.width - 1 || c.y == 0 || c.y == g.height - 1
  }

  const STEPS: seq<Cell> := [Cell(1, 0), Cell(-1, 0), Cell(0, 1), Cell(0, -1)]

  function Step(c: Cell, k: nat): Cell
    requires k < 4
  {
    Cell(c.x + STEPS[k].x, c.y + STEPS[k].y)
  }

  /** Side by side, not corner to corner. */
  predicate Beside(c: Cell, d: Cell) {
    || (c.y == d.y && (d.x == c.x + 1 || d.x == c.x - 1))
    || (c.x == d.x && (d.y == c.y + 1 || d.y == c.y - 1))
  }

  lemma BesideIsStep(c: Cell, d: Cell) returns (k: nat)
    requires Beside(c, d)
    ensures k < 4 && Step(c, k) == d
  {
    k := if d.x == c.x + 1 then 0 else if d.x == c.x - 1 then 1 else if d.y == c.y + 1 then 2 else 3;
  }

  /** A way in from the border over open cells. */
  predicate Path(g: Grid, path: seq<Cell>)
    requires g.Valid()
  {
    && path != [] && Border(g, path[0])
    && (forall i :: 0 <= i < |path| ==> Open(g, path[i]))
    && (forall i :: 0 < i < |path| ==> Beside(path[i - 1], path[i]))
  }

  ghost predicate Outside(g: Grid, c: Cell)
    requires g.Valid()
  {
    exists path :: Path(g, path) && path[|path| - 1] == c
  }

  lemma BorderOutside(g: Grid, c: Cell)
    requires g.Valid() && Open(g, c) && Border(g, c)
    ensures Outside(g, c)
  {
    assert Path(g, [c]) && [c][|[c]| - 1] == c;
  }

  lemma BesideOutside(g: Grid, c: Cell, d: Cell)
    requires g.Valid() && Outside(g, c) && Beside(c, d) && Open(g, d)
    ensures Outside(g, d)
  {
    var path :| Path(g, path) && path[|path| - 1] == c;
    var longer := path + [d];
    assert Path(g, longer) && longer[|longer| - 1] == d;
  }

  // --- the queue -------------------------------------------------------------------------

  /** `order` is every cell that was ever queued: those marked, none twice, all of them outside. */
  ghost predicate Marked(g: Grid, outside: seq<bool>, order: seq<Cell>)
    requires g.Valid()
  {
    && |outside| == |g.solid|
    && (forall c :: In(g, c) ==> (outside[At(g, c)] <==> c in order))
    && (forall c :: c in order ==> Open(g, c) && Outside(g, c))
    && Distinct(order)
  }

  ghost predicate Distinct(order: seq<Cell>) {
    forall i, j :: 0 <= i < j < |order| ==> order[i] != order[j]
  }

  ghost predicate BordersIn(g: Grid, order: seq<Cell>)
    requires g.Valid()
  {
    forall c :: Open(g, c) && Border(g, c) ==> c in order
  }

  /** The open cells beside the first `n` of the queue have been queued too. */
  ghost predicate Expanded(g: Grid, order: seq<Cell>, n: nat)
    requires g.Valid() && n <= |order|
  {
    forall i, d :: 0 <= i < n && Beside(order[i], d) && Open(g, d) ==> d in order
  }

  /** When the queue has run dry, everything outside was queued. */
  lemma {:induction false} PathQueued(g: Grid, order: seq<Cell>, path: seq<Cell>)
    requires g.Valid() && BordersIn(g, order) && Expanded(g, order, |order|) && Path(g, path)
    ensures path[|path| - 1] in order
    decreases |path|
  {
    if |path| > 1 {
      var shorter := path[..|path| - 1];
      assert Path(g, shorter);
      PathQueued(g, order, shorter);
      var i :| 0 <= i < |order| && order[i] == shorter[|shorter| - 1];
      assert Beside(order[i], path[|path| - 1]);
    }
  }

  lemma AllQueued(g: Grid, order: seq<Cell>, c: Cell)
    requires g.Valid() && BordersIn(g, order) && Expanded(g, order, |order|) && Outside(g, c)
    ensures c in order
  {
    var path :| Path(g, path) && path[|path| - 1] == c;
    PathQueued(g, order, path);
  }

  function Unmarked(outside: seq<bool>): (n: nat)
    ensures n <= |outside|
  {
    if outside == [] then 0 else Unmarked(outside[1..]) + if outside[0] then 0 else 1
  }

  lemma {:induction false} MarkingCounts(outside: seq<bool>, i: nat)
    requires i < |outside| && !outside[i]
    ensures Unmarked(outside[i := true]) == Unmarked(outside) - 1
    decreases |outside|
  {
    if i == 0 {
      assert outside[0 := true][1..] == outside[1..];
    } else {
      assert outside[i := true][1..] == outside[1..][i - 1 := true];
      MarkingCounts(outside[1..], i - 1);
    }
  }

  lemma MarkedMore(g: Grid, outside: seq<bool>, order: seq<Cell>, c: Cell)
    requires g.Valid() && Marked(g, outside, order) && Open(g, c) && Outside(g, c) && c !in order
    ensures Marked(g, outside[At(g, c) := true], order + [c])
  {
    var i := At(g, c);
    forall d | In(g, d)
      ensures outside[i := true][At(g, d)] <==> d in order + [c]
    {
      if d != c { CellsApart(g, c, d); }
    }
  }

  /** The queue holds all of `order` but the first `taken`, and what is not marked yet is what is left
      of `total`. */
  ghost predicate Queued(g: Grid, outside: seq<bool>, queue: seq<Cell>, order: seq<Cell>, taken: nat, total: nat)
    requires g.Valid()
  {
    && Marked(g, outside, order)
    && taken <= |order| && queue == order[taken..]
    && Unmarked(outside) + |order| == total
  }

  ghost predicate Grown(order: seq<Cell>, more: seq<Cell>) {
    order <= more && forall c :: c in order ==> c in more
  }

  /** A cell is queued unless it belongs to the shape or was queued before. */
  method Consider(g: Grid, outside: array<bool>, queue: seq<Cell>, c: Cell, ghost order: seq<Cell>,
                  ghost taken: nat, ghost total: nat)
    returns (grown: seq<Cell>, ghost more: seq<Cell>)
    requires g.Valid() && Queued(g, outside[..], queue, order, taken, total) && In(g, c)
    requires Open(g, c) ==> Outside(g, c)
    modifies outside
    ensures Queued(g, outside[..], grown, more, taken, total)
    ensures Grown(order, more) && (Open(g, c) ==> c in more)
  {
    AreaIsProduct(g.width, c.y);
    var index := c.y * g.width + c.x;
    assert index == At(g, c);
    if g.solid[index] || outside[index] {
      return queue, order;
    }
    MarkedMore(g, outside[..], order, c);
    MarkingCounts(outside[..], index);
    outside[index] := true;
    assert outside[..] == old(outside[..])[index := true];
    return queue + [c], order + [c];
  }

  /** The open cells of the top and bottom rows left of `x`. */
  ghost predicate RowsSeeded(g: Grid, order: seq<Cell>, x: int)
    requires g.Valid()
  {
    forall c :: Open(g, c) && c.x < x && (c.y == 0 || c.y == g.height - 1) ==> c in order
  }

  /** The open cells of the first and last columns above `y`. */
  ghost predicate ColumnsSeeded(g: Grid, order: seq<Cell>, y: int)
    requires g.Valid()
  {
    forall c :: Open(g, c) && c.y < y && (c.x == 0 || c.x == g.width - 1) ==> c in order
  }

  method SeedOne(g: Grid, outside: array<bool>, queue: seq<Cell>, c: Cell, ghost order: seq<Cell>, ghost total: nat)
    returns (grown: seq<Cell>, ghost more: seq<Cell>)
    requires g.Valid() && Queued(g, outside[..], queue, order, 0, total) && In(g, c) && Border(g, c)
    modifies outside
    ensures Queued(g, outside[..], grown, more, 0, total)
    ensures Grown(order, more) && (Open(g, c) ==> c in more)
  {
    if Open(g, c) { BorderOutside(g, c); }
    grown, more := Consider(g, outside, queue, c, order, 0, total);
  }

  method SeedRows(g: Grid, outside: array<bool>, ghost total: nat) returns (queue: seq<Cell>, ghost order: seq<Cell>)
    requires g.Valid() && Queued(g, outside[..], [], [], 0, total)
    modifies outside
    ensures Queued(g, outside[..], queue, order, 0, total) && RowsSeeded(g, order, g.width)
  {
    queue, order := [], [];
    for x := 0 to g.width
      invariant Queued(g, outside[..], queue, order, 0, total) && RowsSeeded(g, order, x)
    {
      ghost var before := order;
      queue, order := SeedOne(g, outside, queue, Cell(x, 0), order, total);
      queue, order := SeedOne(g, outside, queue, Cell(x, g.height - 1), order, total);
      RowsNext(g, before, order, x);
    }
  }

  lemma RowsNext(g: Grid, before: seq<Cell>, order: seq<Cell>, x: int)
    requires g.Valid() && RowsSeeded(g, before, x) && forall c :: c in before ==> c in order
    requires Open(g, Cell(x, 0)) ==> Cell(x, 0) in order
    requires Open(g, Cell(x, g.height - 1)) ==> Cell(x, g.height - 1) in order
    ensures RowsSeeded(g, order, x + 1)
  {
    forall c | Open(g, c) && c.x < x + 1 && (c.y == 0 || c.y == g.height - 1)
      ensures c in order
    {
      if c.x == x { assert c == Cell(x, c.y); }
    }
  }

  lemma ColumnsNext(g: Grid, before: seq<Cell>, order: seq<Cell>, y: int)
    requires g.Valid() && ColumnsSeeded(g, before, y) && forall c :: c in before ==> c in order
    requires Open(g, Cell(0, y)) ==> Cell(0, y) in order
    requires Open(g, Cell(g.width - 1, y)) ==> Cell(g.width - 1, y) in order
    ensures ColumnsSeeded(g, order, y + 1)
  {
    forall c | Open(g, c) && c.y < y + 1 && (c.x == 0 || c.x == g.width - 1)
      ensures c in order
    {
      if c.y == y { assert c == Cell(c.x, y); }
    }
  }

  method SeedBorder(g: Grid, outside: array<bool>, ghost total: nat) returns (queue: seq<Cell>, ghost order: seq<Cell>)
    requires g.Valid() && Queued(g, outside[..], [], [], 0, total)
    modifies outside
    ensures Queued(g, outside[..], queue, order, 0, total) && BordersIn(g, order)
  {
    queue, order := SeedRows(g, outside, total);
    for y := 0 to g.height
      invariant Queued(g, outside[..], queue, order, 0, total)
      invariant RowsSeeded(g, order, g.width) && ColumnsSeeded(g, order, y)
    {
      ghost var before := order;
      queue, order := SeedOne(g, outside, queue, Cell(0, y), order, total);
      queue, order := SeedOne(g, outside, queue, Cell(g.width - 1, y), order, total);
      ColumnsNext(g, before, order, y);
    }
  }

  /** Those of the first `n` cells beside `c` that are open. */
  ghost predicate BesideIn(g: Grid, order: seq<Cell>, c: Cell, n: nat)
    requires g.Valid() && n <= 4
  {
    forall j: nat :: j < n && Open(g, Step(c, j)) ==> Step(c, j) in order
  }

  /** The four cells beside one that has been taken from the queue. */
  method Expand(g: Grid, outside: array<bool>, queue: seq<Cell>, c: Cell, ghost order: seq<Cell>,
                ghost taken: nat, ghost total: nat)
    returns (grown: seq<Cell>, ghost more: seq<Cell>)
    requires g.Valid() && Queued(g, outside[..], queue, order, taken, total) && Outside(g, c)
    modifies outside
    ensures Queued(g, outside[..], grown, more, taken, total) && Grown(order, more)
    ensures BesideIn(g, more, c, 4)
  {
    grown, more := queue, order;
    for k := 0 to 4
      invariant Queued(g, outside[..], grown, more, taken, total) && Grown(order, more)
      invariant BesideIn(g, more, c, k)
    {
      var next := Step(c, k);
      if next.x < 0 || next.y < 0 || next.x >= g.width || next.y >= g.height {
        continue;
      }
      if Open(g, next) { BesideOutside(g, c, next); }
      grown, more := Consider(g, outside, grown, next, more, taken, total);
    }
  }

  lemma StillExpanded(g: Grid, before: seq<Cell>, order: seq<Cell>, n: nat)
    requires g.Valid() && Grown(before, order) && n < |before| && Expanded(g, before, n)
    requires BesideIn(g, order, before[n], 4)
    ensures Expanded(g, order, n + 1)
  {
    forall i, d | 0 <= i < n + 1 && Beside(order[i], d) && Open(g, d)
      ensures d in order
    {
      if i < n {
        assert d in before;
      } else {
        var j := BesideIsStep(before[n], d);
      }
    }
  }

  /** What is reachable from the border without crossing the shape is marked, nothing else is, and no
      cell is queued twice. */
  method Fill(g: Grid, outside: array<bool>) returns (ghost order: seq<Cell>)
    requires g.Valid() && outside.Length == |g.solid| && forall i :: 0 <= i < outside.Length ==> !outside[i]
    modifies outside
    ensures forall c :: In(g, c) ==> (outside[..][At(g, c)] <==> Outside(g, c))
    ensures Distinct(order) && forall c :: c in order <==> Outside(g, c)
  {
    ghost var total := Unmarked(outside[..]);
    var queue: seq<Cell>;
    queue, order := SeedBorder(g, outside, total);
    ghost var taken := 0;
    while |queue| > 0
      invariant Queued(g, outside[..], queue, order, taken, total)
      invariant BordersIn(g, order) && Expanded(g, order, taken)
      decreases Unmarked(outside[..]), |queue|
    {
      var c := queue[0];
      queue := queue[1..];
      assert c == order[taken] && c in order;
      ghost var before := order;
      queue, order := Expand(g, outside, queue, c, order, taken + 1, total);
      StillExpanded(g, before, order, taken);
      taken := taken + 1;
    }
    forall c | Outside(g, c)
      ensures c in order
    {
      AllQueued(g, order, c);
    }
    forall c | In(g, c)
      ensures outside[..][At(g, c)] <==> Outside(g, c)
    {
    }
  }

  // --- the mask ----------------------------------------------------------------------------

  function Line(width: nat, y: nat, vivid: (int, int) -> bool): (r: seq<bool>)
    ensures |r| == width
  {
    seq(width, x => vivid(x, y))
  }

  /** What `vivid` says of every pixel, row after row. */
  function Picture(width: nat, height: nat, vivid: (int, int) -> bool): (r: seq<bool>)
    ensures |r| == Area(width, height)
  {
    if height == 0 then [] else Picture(width, height - 1, vivid) + Line(width, height - 1, vivid)
  }

  function Shape(width: nat, height: nat, vivid: (int, int) -> bool): (g: Grid)
    requires width == 0 <==> height == 0
    ensures g.Valid() && g.width == width && g.height == height
  {
    Grid(width, height, Picture(width, height, vivid))
  }

  lemma {:induction false} PictureAt(width: nat, height: nat, vivid: (int, int) -> bool, x: nat, y: nat)
    requires x < width && y < height
    ensures Area(width, y) + x < Area(width, height)
    ensures Picture(width, height, vivid)[Area(width, y) + x] == vivid(x, y)
  {
    RowsFit(width, y, height);
    if y + 1 < height {
      PictureAt(width, height - 1, vivid, x, y);
    }
  }

  /** An open cell is one that is not vivid. */
  lemma ShapeOpen(width: nat, height: nat, vivid: (int, int) -> bool, c: Cell)
    requires width == 0 <==> height == 0
    ensures var g := Shape(width, height, vivid); Open(g, c) <==> In(g, c) && !vivid(c.x, c.y)
  {
    if In(Shape(width, height, vivid), c) {
      PictureAt(width, height, vivid, c.x, c.y);
    }
  }

  method Solid(width: nat, height: nat, vivid: (int, int) -> bool) returns (solid: array<bool>)
    ensures fresh(solid) && solid[..] == Picture(width, height, vivid)
  {
    AreaIsProduct(width, height);
    solid := new bool[height * width];
    for y := 0 to height
      invariant solid.Length == Area(width, height)
      invariant Area(width, y) <= solid.Length && solid[..Area(width, y)] == Picture(width, y, vivid)
    {
      AreaIsProduct(width, y);
      RowsFit(width, y, height);
      var row := y * width;
      for x := 0 to width
        invariant solid[..row] == Picture(width, y, vivid)
        invariant solid[row..row + x] == Line(width, y, vivid)[..x]
      {
        solid[row + x] := vivid(x, y);
        assert solid[row..row + x + 1] == solid[row..row + x] + [vivid(x, y)];
      }
      assert solid[..row + width] == solid[..row] + solid[row..row + width];
    }
    assert solid[..] == solid[..solid.Length];
  }

  /** 0 exactly for the pixels that are not vivid and that can be reached from the border over such
      pixels, 255 for the shape and for what it encloses. */
  method ShapeMask(width: nat, height: nat, vivid: (int, int) -> bool) returns (mask: array<int>)
    requires width == 0 <==> height == 0
    ensures var g := Shape(width, height, vivid);
            && mask.Length == Area(width, height)
            && (forall c :: In(g, c) ==> mask[At(g, c)] == if Outside(g, c) then 0 else 255)
  {
    var solid := Solid(width, height, vivid);
    var g := Grid(width, height, solid[..]);
    var outside := new bool[solid.Length](i => false);
    ghost var order := Fill(g, outside);
    mask := new int[outside.Length];
    for i := 0 to outside.Length
      invariant forall j :: 0 <= j < i ==> mask[j] == if outside[j] then 0 else 255
      invariant forall c :: In(g, c) ==> (outside[..][At(g, c)] <==> Outside(g, c))
    {
      mask[i] := if outside[i] then 0 else 255;
    }
  }
}
