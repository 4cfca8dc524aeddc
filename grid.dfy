/** The infinitely scrolling tile grid of main.py (class Grid).

    The grid keeps two flat lists of line segments, the verticals and the
    horizontals, covering a bounding box a little larger than the window.
    Every scroll step moves each line that has left the box across its
    left, top or bottom edge to the opposite edge, so a finite set of lines
    gives the illusion of a grid scrolling endlessly to the right; a line
    past the right edge is never moved (RightEdgeStays), and as written a
    horizontal line leaving across a left corner keeps its old row
    (RelocateHorizontalAsWritten). Line coordinates are integers; the
    scroll shift is a pair of reals (pygame's Vector2). */
module ScrollGrid {
  import opened Common

  /** An integer pixel point, one end of a grid line. */
  datatype Point = Point(x: int, y: int)

  /** A grid line segment `(start, end)`. */
  datatype Line = Line(start: Point, end: Point)

  /** Which of the two line lists a line belongs to. */
  datatype Orientation = Vertical | Horizontal

  /** A tile index: one unit per tile. */
  datatype Cell = Cell(x: int, y: int)

  /** The constants a Grid fixes at construction: tile size, the length of a
      line (the window rounded up to whole tiles) and the bounding box. */
  datatype Box = Box(tileWidth: int, tileHeight: int, lineWidth: int, lineHeight: int,
                     minX: int, minY: int, maxX: int, maxY: int)

  /** The bounds computed by Grid.__init__ and calculate_grid_size. */
  function BoxFor(tileWidth: int, tileHeight: int, windowWidth: int, windowHeight: int, outer: real): Box
    requires tileWidth > 0 && tileHeight > 0
  {
    var lineWidth := CeilDiv(windowWidth, tileWidth) * tileWidth;
    var lineHeight := CeilDiv(windowHeight, tileHeight) * tileHeight;
    Box(tileWidth, tileHeight, lineWidth, lineHeight,
        -tileWidth, (-(lineHeight as real) * outer).Floor,
        Ceil(lineWidth as real * (1.0 + outer)), Ceil(lineHeight as real * (1.0 + outer)))
  }

  /** A line covers the window with whole tiles and overshoots it by less
      than one tile. */
  lemma LineCoversWindow(tileWidth: int, tileHeight: int, windowWidth: int, windowHeight: int, outer: real)
    requires tileWidth > 0 && tileHeight > 0
    ensures var b := BoxFor(tileWidth, tileHeight, windowWidth, windowHeight, outer);
      && windowWidth <= b.lineWidth < windowWidth + tileWidth
      && windowHeight <= b.lineHeight < windowHeight + tileHeight
  {
    var gw := CeilDiv(windowWidth, tileWidth);
    var gh := CeilDiv(windowHeight, tileHeight);
    assert (gw - 1) * tileWidth == gw * tileWidth - tileWidth;
    assert (gh - 1) * tileHeight == gh * tileHeight - tileHeight;
  }

  /** The box is wide and tall enough for recycling to land lines inside it. */
  predicate Fits(b: Box) {
    b.minX < b.maxX && 0 <= b.lineHeight && b.minY + b.lineHeight <= b.maxY
  }

  /** With a non-negative outer margin (main.py uses 1) the box fits. */
  lemma BoxForFits(tileWidth: int, tileHeight: int, windowWidth: int, windowHeight: int, outer: real)
    requires tileWidth > 0 && tileHeight > 0 && windowWidth > 0 && windowHeight > 0
    requires outer >= 0.0
    ensures Fits(BoxFor(tileWidth, tileHeight, windowWidth, windowHeight, outer))
  {
    var b := BoxFor(tileWidth, tileHeight, windowWidth, windowHeight, outer);
    LineCoversWindow(tileWidth, tileHeight, windowWidth, windowHeight, outer);
    var lw := b.lineWidth as real;
    var lh := b.lineHeight as real;
    assert lw * (1.0 + outer) == lw + lw * outer;
    assert lw * outer >= 0.0;
    assert b.maxX as real >= lw;
    assert lh * (1.0 + outer) == lh + lh * outer;
    assert lh * outer >= 0.0;
    assert -lh * outer == -(lh * outer);
    assert b.minY as real <= -(lh * outer);
    assert b.maxY as real >= lh + lh * outer;
  }

  /** Python's `range(start, stop, step)` for a positive step. */
  function Range(start: int, stop: int, step: int): (r: seq<int>)
    requires step > 0
    ensures start >= stop ==> r == []
    ensures start < stop ==> (|r| - 1) * step < stop - start <= |r| * step
    ensures forall k :: 0 <= k < |r| ==> r[k] == start + k * step && r[k] < stop
    decreases stop - start
  {
    if start >= stop then []
    else
      var rest := Range(start + step, stop, step);
      assert |rest| * step + step == (|rest| + 1) * step;
      assert forall k :: 0 < k <= |rest| ==> start + step + (k - 1) * step == start + k * step;
      [start] + rest
  }

  /** The segment of a given orientation at column (or row) `at`, starting at
      `from` and `len` pixels long. */
  function Segment(o: Orientation, at: int, from: int, len: int): Line {
    match o
    case Vertical => Line(Point(at, from), Point(at, from + len))
    case Horizontal => Line(Point(from, at), Point(from + len, at))
  }

  /** The segments the inner loop of calculate_grid appends for one column (or row). */
  function Row(o: Orientation, at: int, froms: seq<int>, len: int): seq<Line> {
    seq(|froms|, k requires 0 <= k < |froms| => Segment(o, at, froms[k], len))
  }

  /** The segments the nested loops of calculate_grid append, outer loop over `ats`. */
  function GridLines(o: Orientation, ats: seq<int>, froms: seq<int>, len: int): seq<Line> {
    if ats == [] then []
    else GridLines(o, ats[..|ats| - 1], froms, len) + Row(o, ats[|ats| - 1], froms, len)
  }

  /** `GridLines` holds one segment per pair (column, start), in loop order. */
  lemma {:induction false} GridLinesAt(o: Orientation, ats: seq<int>, froms: seq<int>, len: int, p: int, q: int)
    requires 0 <= p < |ats| && 0 <= q < |froms|
    ensures |GridLines(o, ats, froms, len)| == |ats| * |froms|
    ensures 0 <= p * |froms| + q < |ats| * |froms|
    ensures GridLines(o, ats, froms, len)[p * |froms| + q] == Segment(o, ats[p], froms[q], len)
  {
    GridLinesLength(o, ats, froms, len);
    var m, n := |ats|, |froms|;
    var init := ats[..m - 1];
    GridLinesLength(o, init, froms, len);
    FlatIndex(p, q, m, n);
    var g := GridLines(o, init, froms, len);
    assert GridLines(o, ats, froms, len) == g + Row(o, ats[m - 1], froms, len);
    if p < m - 1 {
      FlatIndex(p, q, m - 1, n);
      GridLinesAt(o, init, froms, len, p, q);
      assert init[p] == ats[p];
    } else {
      assert p * n + q == |g| + q;
    }
  }

  lemma {:induction false} GridLinesLength(o: Orientation, ats: seq<int>, froms: seq<int>, len: int)
    ensures |GridLines(o, ats, froms, len)| == |ats| * |froms|
  {
    if ats != [] {
      GridLinesLength(o, ats[..|ats| - 1], froms, len);
      assert (|ats| - 1) * |froms| + |froms| == |ats| * |froms|;
    }
  }

  /** A line of the given orientation and length: verticals keep one x and
      span `len` downwards, horizontals keep one y and span `len` rightwards. */
  predicate Shaped(o: Orientation, l: Line, len: int) {
    match o
    case Vertical => l.start.x == l.end.x && l.end.y == l.start.y + len
    case Horizontal => l.start.y == l.end.y && l.end.x == l.start.x + len
  }

  /** The length of the lines of one orientation. */
  function LineLength(b: Box, o: Orientation): int {
    match o
    case Vertical => b.lineHeight
    case Horizontal => b.lineWidth
  }

  lemma {:induction false} GridLinesShaped(o: Orientation, ats: seq<int>, froms: seq<int>, len: int)
    ensures forall l :: l in GridLines(o, ats, froms, len) ==> Shaped(o, l, len)
  {
    if ats != [] {
      GridLinesShaped(o, ats[..|ats| - 1], froms, len);
    }
  }

  /** The vertical lines calculate_grid appends (main.py:43-45). */
  function InitialVerticals(b: Box): seq<Line>
    requires b.tileWidth > 0 && b.lineHeight > 0
  {
    GridLines(Vertical, Range(b.minX, b.maxX + b.tileWidth, b.tileWidth),
              Range(b.minY, b.maxY, b.lineHeight), b.lineHeight)
  }

  /** The horizontal lines calculate_grid appends (main.py:47-49). */
  function InitialHorizontals(b: Box): seq<Line>
    requires b.tileHeight > 0 && b.lineWidth > 0
  {
    GridLines(Horizontal, Range(b.minY, b.maxY + b.tileHeight, b.tileHeight),
              Range(b.minX, b.maxX, b.lineWidth), b.lineWidth)
  }

  /** The index of an element in a range: `start + k * step` is there, at
      position `k`, whenever it is below `stop`. */
  lemma RangeIndex(start: int, stop: int, step: int, k: int)
    requires step > 0 && 0 <= k && start + k * step < stop
    ensures k < |Range(start, stop, step)| && Range(start, stop, step)[k] == start + k * step
  {
    assert k * step >= 0;
  }

  /** Row-major flattening: pair `(p, q)` of an `m` by `n` table sits at
      index `p * n + q`, inside the table. */
  lemma FlatIndex(p: int, q: int, m: int, n: int)
    requires 0 <= p < m && 0 <= q < n
    ensures 0 <= p * n + q < m * n
  {
    assert p * n >= 0;
    assert (p + 1) * n <= m * n;
  }

  /** calculate_grid appends one vertical `((c, i), (c, i + lineHeight))`
      for each column `c = minX + p * tw` up to `maxX` inclusive and each
      start `i = minY + q * lineHeight` below `maxY`, columns in the outer
      loop. */
  lemma InitialVerticalAt(b: Box, p: int, q: int)
    requires b.tileWidth > 0 && b.lineHeight > 0
    requires 0 <= p && b.minX + p * b.tileWidth <= b.maxX
    requires 0 <= q && b.minY + q * b.lineHeight < b.maxY
    ensures var n := |Range(b.minY, b.maxY, b.lineHeight)|;
      && q < n && p * n + q < |InitialVerticals(b)|
      && InitialVerticals(b)[p * n + q]
         == Line(Point(b.minX + p * b.tileWidth, b.minY + q * b.lineHeight),
                 Point(b.minX + p * b.tileWidth, b.minY + q * b.lineHeight + b.lineHeight))
  {
    var ats := Range(b.minX, b.maxX + b.tileWidth, b.tileWidth);
    var froms := Range(b.minY, b.maxY, b.lineHeight);
    RangeIndex(b.minX, b.maxX + b.tileWidth, b.tileWidth, p);
    RangeIndex(b.minY, b.maxY, b.lineHeight, q);
    FlatIndex(p, q, |ats|, |froms|);
    GridLinesAt(Vertical, ats, froms, b.lineHeight, p, q);
  }

  /** calculate_grid appends one horizontal `((i, r), (i + lineWidth, r))`
      for each row `r = minY + p * th` up to `maxY` inclusive and each start
      `i = minX + q * lineWidth` below `maxX`, rows in the outer loop. */
  lemma InitialHorizontalAt(b: Box, p: int, q: int)
    requires b.tileHeight > 0 && b.lineWidth > 0
    requires 0 <= p && b.minY + p * b.tileHeight <= b.maxY
    requires 0 <= q && b.minX + q * b.lineWidth < b.maxX
    ensures var n := |Range(b.minX, b.maxX, b.lineWidth)|;
      && q < n && p * n + q < |InitialHorizontals(b)|
      && InitialHorizontals(b)[p * n + q]
         == Line(Point(b.minX + q * b.lineWidth, b.minY + p * b.tileHeight),
                 Point(b.minX + q * b.lineWidth + b.lineWidth, b.minY + p * b.tileHeight))
  {
    var ats := Range(b.minY, b.maxY + b.tileHeight, b.tileHeight);
    var froms := Range(b.minX, b.maxX, b.lineWidth);
    RangeIndex(b.minY, b.maxY + b.tileHeight, b.tileHeight, p);
    RangeIndex(b.minX, b.maxX, b.lineWidth, q);
    FlatIndex(p, q, |ats|, |froms|);
    GridLinesAt(Horizontal, ats, froms, b.lineWidth, p, q);
  }

  /** Every initial line has its orientation and the length of a line. */
  lemma InitialShaped(b: Box)
    requires b.tileWidth > 0 && b.tileHeight > 0 && b.lineWidth > 0 && b.lineHeight > 0
    ensures forall l :: l in InitialVerticals(b) ==> Shaped(Vertical, l, b.lineHeight)
    ensures forall l :: l in InitialHorizontals(b) ==> Shaped(Horizontal, l, b.lineWidth)
  {
    GridLinesShaped(Vertical, Range(b.minX, b.maxX + b.tileWidth, b.tileWidth), Range(b.minY, b.maxY, b.lineHeight), b.lineHeight);
    GridLinesShaped(Horizontal, Range(b.minY, b.maxY + b.tileHeight, b.tileHeight), Range(b.minX, b.maxX, b.lineWidth), b.lineWidth);
  }

  /** The shift quantised to whole tiles, as Grid.update computes
      `tile_width * (shift.x // tile_width)`. */
  function Quantise(s: real, t: int): int
    requires t > 0
  {
    t * (s / t as real).Floor
  }

  /** The quantised shift is the largest whole number of tiles not above
      the shift: `cx <= shift.x < cx + tile_width`. */
  lemma QuantiseBrackets(s: real, t: int)
    requires t > 0
    ensures Quantise(s, t) as real <= s < (Quantise(s, t) + t) as real
  {
    var f := (s / t as real).Floor;
    FloorDivBrackets(s, t);
    IntRealMul(t, f);
    IntRealMul(t, f + 1);
    assert t * f + t == t * (f + 1);
  }

  lemma IntRealMul(a: int, b: int)
    ensures (a * b) as real == a as real * b as real
  {
  }

  /** One vertical line's recycling step in Grid.update (main.py:62-79):
      None when the line crosses no edge, otherwise its new position. A line
      left of `minX` moves to `maxX`; a line above `minY` moves to the
      bottom, or else one below `maxY` moves to the top; both moves compose. */
  function RelocateVertical(b: Box, l: Line, cx: int, cy: int): Option<Line> {
    var right := l.start.x + cx < b.minX;
    var down := l.start.y + cy < b.minY;
    var up := !down && l.end.y + cy > b.maxY;
    if !(right || down || up) then None
    else
      var sx := if right then b.maxX - cx else l.start.x;
      var ex := if right then b.maxX - cx else l.end.x;
      var sy := if down then b.maxY - cy - b.lineHeight else if up then b.minY - cy else l.start.y;
      var ey := if down then b.maxY - cy else if up then b.minY - cy + b.lineHeight else l.end.y;
      Some(Line(Point(sx, sy), Point(ex, ey)))
  }

  /** One horizontal line's recycling step in Grid.update (main.py:86-99),
      with the "going right" move keeping the row chosen by the vertical move
      of the same call (see RelocateHorizontalAsWritten). */
  function RelocateHorizontal(b: Box, l: Line, cx: int, cy: int): Option<Line> {
    var down := l.start.y + cy < b.minY;
    var up := !down && l.start.y + cy > b.maxY;
    var right := l.end.x + cx <= b.minX;
    if !(down || up || right) then None
    else
      var sy := if down then b.maxY - cy else if up then b.minY - cy else l.start.y;
      var ey := if down then b.maxY - cy else if up then b.minY - cy else l.end.y;
      var sx := if right then b.maxX - cx - b.lineWidth else l.start.x;
      var ex := if right then b.maxX - cx else l.end.x;
      Some(Line(Point(sx, sy), Point(ex, ey)))
  }

  /** The horizontal step exactly as main.py:86-99 writes it: the "going
      right" branch rebuilds both endpoints from the ORIGINAL y values
      (`start[1]`, `end[1]`), discarding a move to the top or bottom made a
      few lines earlier in the same call. */
  function RelocateHorizontalAsWritten(b: Box, l: Line, cx: int, cy: int): Option<Line> {
    var down := l.start.y + cy < b.minY;
    var up := !down && l.start.y + cy > b.maxY;
    var right := l.end.x + cx <= b.minX;
    if !(down || up || right) then None
    else if right then
      Some(Line(Point(b.maxX - cx - b.lineWidth, l.start.y), Point(b.maxX - cx, l.end.y)))
    else
      var y := if down then b.maxY - cy else b.minY - cy;
      Some(Line(Point(l.start.x, y), Point(l.end.x, y)))
  }

  /** Which horizontal step a recycling pass uses: the program as written
      (main.py:96-99) or the corrected one; the vertical step is the same. */
  datatype Variant = AsWritten | Corrected

  /** One line's recycling step in Grid.update. */
  function Relocate(b: Box, v: Variant, o: Orientation, l: Line, cx: int, cy: int): Option<Line> {
    match o
    case Vertical => RelocateVertical(b, l, cx, cy)
    case Horizontal =>
      if v == AsWritten then RelocateHorizontalAsWritten(b, l, cx, cy) else RelocateHorizontal(b, l, cx, cy)
  }

  /** Where a line sits after a recycling step, seen through the quantised
      shift: a vertical is not left of the box and its span lies between
      `minY` and `maxY`; a horizontal ends right of `minX` and its row lies
      between `minY` and `maxY`. */
  predicate Placed(b: Box, o: Orientation, l: Line, cx: int, cy: int) {
    match o
    case Vertical =>
      b.minX <= l.start.x + cx && b.minY <= l.start.y + cy && l.end.y + cy <= b.maxY
    case Horizontal =>
      b.minX < l.end.x + cx && b.minY <= l.start.y + cy <= b.maxY
  }

  /** A line that crosses no edge stays where it is; a line that crosses one
      is moved: a vertical left of the box to `x = maxX - cx`, a horizontal
      left of the box to the span `[maxX - cx - lineWidth, maxX - cx]`.
      Either way it ends up placed, and a line keeps its orientation and
      length. This holds for the vertical step and the corrected horizontal
      step; AsWrittenHorizontalLeftAboveBox refutes it for main.py:96-99 as
      written. */
  lemma RelocateCorrect(b: Box, v: Variant, o: Orientation, l: Line, cx: int, cy: int)
    requires Fits(b) && (o == Vertical || v == Corrected)
    ensures Relocate(b, v, o, l, cx, cy).None? ==> Placed(b, o, l, cx, cy)
    ensures Relocate(b, v, o, l, cx, cy).Some? ==> Placed(b, o, Relocate(b, v, o, l, cx, cy).value, cx, cy)
    ensures Relocate(b, v, o, l, cx, cy).None? <==> Placed(b, o, l, cx, cy) && (o == Horizontal ==> l.start.y + cy <= b.maxY)
    ensures Shaped(o, l, LineLength(b, o)) && Relocate(b, v, o, l, cx, cy).Some? ==>
      Shaped(o, Relocate(b, v, o, l, cx, cy).value, LineLength(b, o))
    ensures o == Vertical && l.start.x + cx < b.minX ==>
      Relocate(b, v, o, l, cx, cy).Some? &&
      Relocate(b, v, o, l, cx, cy).value.start.x == Relocate(b, v, o, l, cx, cy).value.end.x == b.maxX - cx
    ensures o == Horizontal && l.end.x + cx <= b.minX ==>
      Relocate(b, v, o, l, cx, cy).Some? &&
      Relocate(b, v, o, l, cx, cy).value.start.x == b.maxX - cx - b.lineWidth &&
      Relocate(b, v, o, l, cx, cy).value.end.x == b.maxX - cx
  {
  }

  /** The recycling loop of Grid.update over one list: `pending` is what
      is left of the copy being iterated, `live` the list being mutated;
      each crossing line is removed once and its new position appended. */
  function Recycle(b: Box, v: Variant, o: Orientation, live: seq<Line>, pending: seq<Line>, cx: int, cy: int): seq<Line>
    decreases |pending|
  {
    if pending == [] then live
    else
      match Relocate(b, v, o, pending[0], cx, cy)
      case None => Recycle(b, v, o, live, pending[1..], cx, cy)
      case Some(n) => Recycle(b, v, o, RemoveFirst(live, pending[0]) + [n], pending[1..], cx, cy)
  }

  /** The lines that cross no edge, in order. */
  function Kept(b: Box, v: Variant, o: Orientation, ls: seq<Line>, cx: int, cy: int): seq<Line> {
    if ls == [] then []
    else (if Relocate(b, v, o, ls[0], cx, cy).None? then [ls[0]] else []) + Kept(b, v, o, ls[1..], cx, cy)
  }

  /** The lines that cross an edge, in order. */
  function Crossing(b: Box, v: Variant, o: Orientation, ls: seq<Line>, cx: int, cy: int): seq<Line> {
    if ls == [] then []
    else (if Relocate(b, v, o, ls[0], cx, cy).Some? then [ls[0]] else []) + Crossing(b, v, o, ls[1..], cx, cy)
  }

  /** The new positions of the crossing lines, in order. */
  function Images(b: Box, v: Variant, o: Orientation, ls: seq<Line>, cx: int, cy: int): seq<Line> {
    if ls == [] then []
    else (match Relocate(b, v, o, ls[0], cx, cy) case None => [] case Some(n) => [n]) + Images(b, v, o, ls[1..], cx, cy)
  }

  /** Kept and crossing lines split the list; each crossing line has one image. */
  lemma Partition(b: Box, v: Variant, o: Orientation, ls: seq<Line>, cx: int, cy: int)
    ensures multiset(Kept(b, v, o, ls, cx, cy)) + multiset(Crossing(b, v, o, ls, cx, cy)) == multiset(ls)
    ensures |Images(b, v, o, ls, cx, cy)| == |Crossing(b, v, o, ls, cx, cy)|
    ensures forall l :: l in Kept(b, v, o, ls, cx, cy) ==> l in ls && Relocate(b, v, o, l, cx, cy).None?
    ensures forall n :: n in Images(b, v, o, ls, cx, cy) ==> exists l :: l in ls && Relocate(b, v, o, l, cx, cy) == Some(n)
  {
    KeptCrossingMultiset(b, v, o, ls, cx, cy);
    ImagesLength(b, v, o, ls, cx, cy);
    PartitionOrigin(b, v, o, ls, cx, cy);
  }

  lemma {:induction false} KeptCrossingMultiset(b: Box, v: Variant, o: Orientation, ls: seq<Line>, cx: int, cy: int)
    ensures multiset(Kept(b, v, o, ls, cx, cy)) + multiset(Crossing(b, v, o, ls, cx, cy)) == multiset(ls)
  {
    if ls != [] {
      var tail := ls[1..];
      KeptCrossingMultiset(b, v, o, tail, cx, cy);
      assert ls == [ls[0]] + tail;
      assert multiset(ls) == multiset{ls[0]} + multiset(tail);
      var kt, ct := Kept(b, v, o, tail, cx, cy), Crossing(b, v, o, tail, cx, cy);
      if Relocate(b, v, o, ls[0], cx, cy).None? {
        assert Kept(b, v, o, ls, cx, cy) == [ls[0]] + kt;
        assert Crossing(b, v, o, ls, cx, cy) == ct;
        assert multiset([ls[0]] + kt) == multiset{ls[0]} + multiset(kt);
      } else {
        assert Kept(b, v, o, ls, cx, cy) == kt;
        assert Crossing(b, v, o, ls, cx, cy) == [ls[0]] + ct;
        assert multiset([ls[0]] + ct) == multiset{ls[0]} + multiset(ct);
      }
    }
  }

  lemma {:induction false} ImagesLength(b: Box, v: Variant, o: Orientation, ls: seq<Line>, cx: int, cy: int)
    ensures |Images(b, v, o, ls, cx, cy)| == |Crossing(b, v, o, ls, cx, cy)|
  {
    if ls != [] {
      ImagesLength(b, v, o, ls[1..], cx, cy);
    }
  }

  lemma {:induction false} PartitionOrigin(b: Box, v: Variant, o: Orientation, ls: seq<Line>, cx: int, cy: int)
    ensures forall l :: l in Kept(b, v, o, ls, cx, cy) ==> l in ls && Relocate(b, v, o, l, cx, cy).None?
    ensures forall n :: n in Images(b, v, o, ls, cx, cy) ==> exists l :: l in ls && Relocate(b, v, o, l, cx, cy) == Some(n)
  {
    if ls != [] {
      PartitionOrigin(b, v, o, ls[1..], cx, cy);
      var r := Relocate(b, v, o, ls[0], cx, cy);
      forall n | n in Images(b, v, o, ls, cx, cy)
        ensures exists l :: l in ls && Relocate(b, v, o, l, cx, cy) == Some(n)
      {
        if r.Some? && n == r.value {
          assert ls[0] in ls;
        } else {
          assert n in Images(b, v, o, ls[1..], cx, cy);
          var l :| l in ls[1..] && Relocate(b, v, o, l, cx, cy) == Some(n);
          assert l in ls;
        }
      }
      forall l | l in Kept(b, v, o, ls, cx, cy)
        ensures l in ls && Relocate(b, v, o, l, cx, cy).None?
      {
        if l != ls[0] || r.Some? {
          assert l in Kept(b, v, o, ls[1..], cx, cy);
        }
      }
    }
  }

  /** Every crossing line is still in the live list when its turn comes,
      so each is removed exactly once and its image appended once. */
  lemma {:induction false} RecycleMultiset(b: Box, v: Variant, o: Orientation, live: seq<Line>, pending: seq<Line>, cx: int, cy: int)
    requires multiset(pending) <= multiset(live)
    ensures multiset(Recycle(b, v, o, live, pending, cx, cy)) + multiset(Crossing(b, v, o, pending, cx, cy))
         == multiset(live) + multiset(Images(b, v, o, pending, cx, cy))
    decreases |pending|
  {
    if pending != [] {
      var l := pending[0];
      var tail := pending[1..];
      assert pending == [l] + tail;
      assert multiset(pending) == multiset{l} + multiset(tail);
      assert l in multiset(live);
      match Relocate(b, v, o, l, cx, cy)
      case None =>
        assert Recycle(b, v, o, live, pending, cx, cy) == Recycle(b, v, o, live, tail, cx, cy);
        assert Crossing(b, v, o, pending, cx, cy) == Crossing(b, v, o, tail, cx, cy);
        assert Images(b, v, o, pending, cx, cy) == Images(b, v, o, tail, cx, cy);
        RecycleMultiset(b, v, o, live, tail, cx, cy);
      case Some(n) =>
        var rest := RemoveFirst(live, l);
        var live' := rest + [n];
        RemoveFirstMultiset(live, l);
        TakeOneBack(multiset(live), l);
        assert multiset(rest) + multiset{l} == multiset(live);
        assert multiset(live') == multiset(rest) + multiset{n};
        assert multiset(tail) <= multiset(rest);
        assert Recycle(b, v, o, live, pending, cx, cy) == Recycle(b, v, o, live', tail, cx, cy);
        assert Crossing(b, v, o, pending, cx, cy) == [l] + Crossing(b, v, o, tail, cx, cy);
        assert Images(b, v, o, pending, cx, cy) == [n] + Images(b, v, o, tail, cx, cy);
        RecycleMultiset(b, v, o, live', tail, cx, cy);
        SwapOne(multiset(Recycle(b, v, o, live', tail, cx, cy)), multiset(Crossing(b, v, o, tail, cx, cy)),
                multiset(Images(b, v, o, tail, cx, cy)), multiset(rest), l, n);
        assert multiset([l] + Crossing(b, v, o, tail, cx, cy)) == multiset{l} + multiset(Crossing(b, v, o, tail, cx, cy));
        assert multiset([n] + Images(b, v, o, tail, cx, cy)) == multiset{n} + multiset(Images(b, v, o, tail, cx, cy));
    }
  }

  lemma SwapOne<T>(r: multiset<T>, c: multiset<T>, i: multiset<T>, rest: multiset<T>, l: T, n: T)
    requires r + c == rest + multiset{n} + i
    ensures r + (multiset{l} + c) == (rest + multiset{l}) + (multiset{n} + i)
  {
    forall x
      ensures (r + (multiset{l} + c))[x] == ((rest + multiset{l}) + (multiset{n} + i))[x]
    {
      assert (r + c)[x] == (rest + multiset{n} + i)[x];
    }
  }

  lemma TakeOneBack<T>(m: multiset<T>, x: T)
    requires x in m
    ensures (m - multiset{x}) + multiset{x} == m
  {
  }

  /** One call of Grid.update on a list leaves exactly the lines that cross
      no edge plus the new positions of those that do, and as many lines as
      before. */
  lemma RecycleContents(b: Box, v: Variant, o: Orientation, ls: seq<Line>, cx: int, cy: int)
    ensures multiset(Recycle(b, v, o, ls, ls, cx, cy))
         == multiset(Kept(b, v, o, ls, cx, cy)) + multiset(Images(b, v, o, ls, cx, cy))
    ensures |Recycle(b, v, o, ls, ls, cx, cy)| == |ls|
  {
    RecycleMultiset(b, v, o, ls, ls, cx, cy);
    Partition(b, v, o, ls, cx, cy);
    var r := Recycle(b, v, o, ls, ls, cx, cy);
    var k, c, i := multiset(Kept(b, v, o, ls, cx, cy)), multiset(Crossing(b, v, o, ls, cx, cy)), multiset(Images(b, v, o, ls, cx, cy));
    forall x
      ensures multiset(r)[x] == (k + i)[x]
    {
      assert (multiset(r) + c)[x] == (multiset(ls) + i)[x];
      assert (k + c)[x] == multiset(ls)[x];
    }
    assert multiset(r) == k + i;
    assert |multiset(r)| == |r|;
    assert |k + c| == |k| + |c| == |ls|;
    assert |k + i| == |k| + |i|;
    assert |i| == |Images(b, v, o, ls, cx, cy)| == |Crossing(b, v, o, ls, cx, cy)| == |c|;
  }

  /** After one recycling step with the vertical or the corrected horizontal
      step every line is placed with respect to the quantised shift, and
      lines keep their orientation and length. */
  lemma RecyclePlaced(b: Box, v: Variant, o: Orientation, ls: seq<Line>, cx: int, cy: int)
    requires Fits(b) && (o == Vertical || v == Corrected)
    ensures forall l :: l in Recycle(b, v, o, ls, ls, cx, cy) ==> Placed(b, o, l, cx, cy)
    ensures (forall l :: l in ls ==> Shaped(o, l, LineLength(b, o))) ==>
      forall l :: l in Recycle(b, v, o, ls, ls, cx, cy) ==> Shaped(o, l, LineLength(b, o))
  {
    RecycleContents(b, v, o, ls, cx, cy);
    Partition(b, v, o, ls, cx, cy);
    var r := Recycle(b, v, o, ls, ls, cx, cy);
    forall l | l in r
      ensures Placed(b, o, l, cx, cy)
      ensures (forall m :: m in ls ==> Shaped(o, m, LineLength(b, o))) ==> Shaped(o, l, LineLength(b, o))
    {
      assert l in multiset(r);
      if l in Kept(b, v, o, ls, cx, cy) {
        RelocateCorrect(b, v, o, l, cx, cy);
      } else {
        assert l in multiset(Images(b, v, o, ls, cx, cy));
        var m :| m in ls && Relocate(b, v, o, m, cx, cy) == Some(l);
        RelocateCorrect(b, v, o, m, cx, cy);
      }
    }
  }

  /** The discrepancy in main.py:96-99: on the first horizontal line of a
      fresh 100x100 window with 10-pixel tiles, one update by the shift
      (-100, -10) crosses both the top and the left edge; as written the
      line is moved right but left above the box, while keeping the move to
      the bottom places it. */
  lemma AsWrittenHorizontalLeftAboveBox()
    ensures var b := BoxFor(10, 10, 100, 100, 1.0);
      var l := InitialHorizontals(b)[0];
      var cx := Quantise(-100.0, 10);
      var cy := Quantise(-10.0, 10);
      && RelocateHorizontalAsWritten(b, l, cx, cy) == Some(Line(Point(200, -100), Point(300, -100)))
      && !Placed(b, Horizontal, RelocateHorizontalAsWritten(b, l, cx, cy).value, cx, cy)
      && RelocateHorizontal(b, l, cx, cy) == Some(Line(Point(200, 210), Point(300, 210)))
      && Placed(b, Horizontal, RelocateHorizontal(b, l, cx, cy).value, cx, cy)
  {
    var b := BoxFor(10, 10, 100, 100, 1.0);
    assert CeilDiv(100, 10) == 10;
    assert b == Box(10, 10, 100, 100, -10, -100, 200, 200);
    InitialHorizontalAt(b, 0, 0);
    assert Quantise(-100.0, 10) == -100 by {
      assert -100.0 / 10.0 == -10.0;
    }
    assert Quantise(-10.0, 10) == -10 by {
      assert -10.0 / 10.0 == -1.0;
    }
  }

  /** A horizontal line that crosses the left edge together with the top or
      bottom edge: the one case where main.py:96-99 goes wrong. */
  predicate CrossesCorner(b: Box, l: Line, cx: int, cy: int) {
    l.end.x + cx <= b.minX && (l.start.y + cy < b.minY || l.start.y + cy > b.maxY)
  }

  /** No step tests the right edge: in a fresh 100x100 window with 10-pixel
      tiles, a vertical line right of the box at zero shift stays put. */
  lemma RightEdgeStays(v: Variant)
    ensures var b := BoxFor(10, 10, 100, 100, 1.0);
      var l := Line(Point(250, 0), Point(250, 100));
      && b.maxX < l.start.x
      && Relocate(b, v, Vertical, l, 0, 0).None?
  {
    assert CeilDiv(100, 10) == 10;
    assert BoxFor(10, 10, 100, 100, 1.0) == Box(10, 10, 100, 100, -10, -100, 200, 200);
  }

  /** The two horizontal steps differ only on a line crossing a corner. */
  lemma AsWrittenAgreesOtherwise(b: Box, l: Line, cx: int, cy: int)
    ensures RelocateHorizontalAsWritten(b, l, cx, cy) != RelocateHorizontal(b, l, cx, cy) ==>
      CrossesCorner(b, l, cx, cy)
  {
  }

  /** When no line of the list crosses a corner, recycling the horizontals
      as written gives exactly the corrected result. */
  lemma {:induction false} RecycleAgrees(b: Box, live: seq<Line>, pending: seq<Line>, cx: int, cy: int)
    requires forall l :: l in pending ==> !CrossesCorner(b, l, cx, cy)
    ensures Recycle(b, AsWritten, Horizontal, live, pending, cx, cy)
         == Recycle(b, Corrected, Horizontal, live, pending, cx, cy)
    decreases |pending|
  {
    if pending != [] {
      AsWrittenAgreesOtherwise(b, pending[0], cx, cy);
      var live' := match Relocate(b, Corrected, Horizontal, pending[0], cx, cy)
        case None => live
        case Some(n) => RemoveFirst(live, pending[0]) + [n];
      RecycleAgrees(b, live', pending[1..], cx, cy);
    }
  }

  /** Even as written, a recycled horizontal line ends right of the box's
      left edge: the "going right" move sets its end to `maxX - cx`. */
  lemma RelocateEndsRight(b: Box, v: Variant, l: Line, cx: int, cy: int)
    requires Fits(b)
    ensures Relocate(b, v, Horizontal, l, cx, cy).None? ==> b.minX < l.end.x + cx
    ensures Relocate(b, v, Horizontal, l, cx, cy).Some? ==> b.minX < Relocate(b, v, Horizontal, l, cx, cy).value.end.x + cx
  {
  }

  /** After one update with either horizontal step every horizontal line
      ends right of the box's left edge. */
  lemma RecycleEndsRight(b: Box, v: Variant, ls: seq<Line>, cx: int, cy: int)
    requires Fits(b)
    ensures forall l :: l in Recycle(b, v, Horizontal, ls, ls, cx, cy) ==> b.minX < l.end.x + cx
  {
    RecycleContents(b, v, Horizontal, ls, cx, cy);
    Partition(b, v, Horizontal, ls, cx, cy);
    var r := Recycle(b, v, Horizontal, ls, ls, cx, cy);
    forall l | l in r
      ensures b.minX < l.end.x + cx
    {
      assert l in multiset(r);
      if l in Kept(b, v, Horizontal, ls, cx, cy) {
        RelocateEndsRight(b, v, l, cx, cy);
      } else {
        assert l in multiset(Images(b, v, Horizontal, ls, cx, cy));
        var m :| m in ls && Relocate(b, v, Horizontal, m, cx, cy) == Some(l);
        RelocateEndsRight(b, v, m, cx, cy);
      }
    }
  }

  /** The pixel position of the top-left corner of a tile under a shift. */
  function PosToCoordinates(pos: Cell, tileWidth: int, tileHeight: int, shift: Vec): Vec {
    Vec((pos.x * tileWidth) as real + shift.x, (pos.y * tileHeight) as real + shift.y)
  }

  /** The tile under a pixel, relative to a shift (floor division). */
  function LocalCoordinatesToPos(coordinates: Vec, tileWidth: int, tileHeight: int, shift: Vec): Cell
    requires tileWidth > 0 && tileHeight > 0
  {
    Cell(((coordinates.x - shift.x) / tileWidth as real).Floor,
         ((coordinates.y - shift.y) / tileHeight as real).Floor)
  }

  /** The scrolling grid. Tile size, line lengths and bounds are fixed at
      construction; the two line lists and the shift change. Colour and
      drawing are not modelled. */
  class Grid {
    const tileWidth: int
    const tileHeight: int
    const gridWidth: int
    const gridHeight: int
    const lineWidth: int
    const lineHeight: int
    const minX: int
    const minY: int
    const maxX: int
    const maxY: int
    var verticals: seq<Line>
    var horizontals: seq<Line>
    var shift: Vec

    function Bounds(): Box {
      Box(tileWidth, tileHeight, lineWidth, lineHeight, minX, minY, maxX, maxY)
    }

    ghost predicate Valid()
      reads this
    {
      && tileWidth > 0 && tileHeight > 0
      && gridWidth > 0 && gridHeight > 0
      && lineWidth == gridWidth * tileWidth && lineHeight == gridHeight * tileHeight
      && (forall l :: l in verticals ==> Shaped(Vertical, l, lineHeight))
      && (forall l :: l in horizontals ==> Shaped(Horizontal, l, lineWidth))
    }

    /** Grid.__init__ for a window of the given size (`settings.WINDOW_SIZE`). */
    constructor (tileWidth: int, tileHeight: int, windowWidth: int, windowHeight: int, outer: real)
      requires tileWidth > 0 && tileHeight > 0 && windowWidth > 0 && windowHeight > 0
      ensures Valid()
      ensures gridWidth == CeilDiv(windowWidth, tileWidth) && gridHeight == CeilDiv(windowHeight, tileHeight)
      ensures Bounds() == BoxFor(tileWidth, tileHeight, windowWidth, windowHeight, outer)
      ensures verticals == InitialVerticals(Bounds()) && horizontals == InitialHorizontals(Bounds())
      ensures shift == Vec(0.0, 0.0)
    {
      var b := BoxFor(tileWidth, tileHeight, windowWidth, windowHeight, outer);
      this.tileWidth, this.tileHeight := tileWidth, tileHeight;
      gridWidth, gridHeight := CeilDiv(windowWidth, tileWidth), CeilDiv(windowHeight, tileHeight);
      lineWidth, lineHeight := b.lineWidth, b.lineHeight;
      minX, minY, maxX, maxY := b.minX, b.minY, b.maxX, b.maxY;
      verticals, horizontals := [], [];
      shift := Vec(0.0, 0.0);
      new;
      CalculateGrid();
    }

    /** get_number_of_lines (main.py:36-37). */
    function NumberOfLines(): nat
      reads this
    {
      |verticals| + |horizontals|
    }

    /** calculate_grid (main.py:42-49): appends the initial lines to both
        lists, keeping what they already hold. */
    method CalculateGrid()
      requires Valid()
      modifies this`verticals, this`horizontals
      ensures Valid()
      ensures verticals == old(verticals) + InitialVerticals(Bounds())
      ensures horizontals == old(horizontals) + InitialHorizontals(Bounds())
    {
      var b := Bounds();
      InitialShaped(b);
      verticals := AppendGrid(verticals, Vertical, Range(minX, maxX + tileWidth, tileWidth),
                              Range(minY, maxY, lineHeight), lineHeight);
      horizontals := AppendGrid(horizontals, Horizontal, Range(minY, maxY + tileHeight, tileHeight),
                                Range(minX, maxX, lineWidth), lineWidth);
    }

    /** update (main.py:51-103), as written: stores the shift, then
        recycles the verticals and the horizontals against the shift
        quantised to whole tiles. No line is lost or duplicated; every
        vertical ends up placed and every horizontal ends right of the box's left edge,
        and the horizontals are placed too when no line crossed a corner of
        the box (AsWrittenHorizontalLeftAboveBox shows one that is not). */
    method Update(newShift: Vec)
      requires Valid()
      modifies this
      ensures Valid()
      ensures shift == newShift
      ensures verticals == Recycle(Bounds(), AsWritten, Vertical, old(verticals), old(verticals),
                                   Quantise(newShift.x, tileWidth), Quantise(newShift.y, tileHeight))
      ensures horizontals == Recycle(Bounds(), AsWritten, Horizontal, old(horizontals), old(horizontals),
                                     Quantise(newShift.x, tileWidth), Quantise(newShift.y, tileHeight))
      ensures NumberOfLines() == old(NumberOfLines())
      ensures Fits(Bounds()) ==>
        && (forall l :: l in verticals ==> Placed(Bounds(), Vertical, l, Quantise(newShift.x, tileWidth), Quantise(newShift.y, tileHeight)))
        && (forall l :: l in horizontals ==> Bounds().minX < l.end.x + Quantise(newShift.x, tileWidth))
      ensures (Fits(Bounds()) &&
        forall l :: l in old(horizontals) ==> !CrossesCorner(Bounds(), l, Quantise(newShift.x, tileWidth), Quantise(newShift.y, tileHeight))) ==>
        forall l :: l in horizontals ==> Placed(Bounds(), Horizontal, l, Quantise(newShift.x, tileWidth), Quantise(newShift.y, tileHeight))
    {
      shift := newShift;
      var b := Bounds();
      var cx := Quantise(newShift.x, tileWidth);
      var cy := Quantise(newShift.y, tileHeight);
      var vs, hs := verticals, horizontals;
      RecycleContents(b, AsWritten, Vertical, vs, cx, cy);
      RecycleContents(b, AsWritten, Horizontal, hs, cx, cy);
      RecycleShaped(b, AsWritten, Vertical, vs, cx, cy);
      RecycleShaped(b, AsWritten, Horizontal, hs, cx, cy);
      if Fits(b) {
        RecyclePlaced(b, AsWritten, Vertical, vs, cx, cy);
        RecycleEndsRight(b, AsWritten, hs, cx, cy);
        if forall l :: l in hs ==> !CrossesCorner(b, l, cx, cy) {
          RecycleAgrees(b, hs, hs, cx, cy);
          RecyclePlaced(b, Corrected, Horizontal, hs, cx, cy);
        }
      }
      verticals := RecycleLines(b, AsWritten, Vertical, vs, cx, cy);
      horizontals := RecycleLines(b, AsWritten, Horizontal, hs, cx, cy);
    }

    /** convert_pos_to_coordinates (main.py:109-110). */
    function ConvertPosToCoordinates(pos: Cell): Vec
      reads this
    {
      PosToCoordinates(pos, tileWidth, tileHeight, shift)
    }

    /** convert_local_coordinates_to_pos (main.py:112-114). */
    function ConvertLocalCoordinatesToPos(coordinates: Vec): Cell
      reads this
      requires Valid()
    {
      LocalCoordinatesToPos(coordinates, tileWidth, tileHeight, shift)
    }

    /** convert_world_coordinates_to_pos (main.py:116-117): the tile under a
        pixel, ignoring the shift. */
    function ConvertWorldCoordinatesToPos(coordinates: Vec): Cell
      reads this
      requires Valid()
    {
      Cell((coordinates.x / tileWidth as real).Floor, (coordinates.y / tileHeight as real).Floor)
    }

    /** reset (main.py:119-121): zeroes the shift and runs calculate_grid
        again WITHOUT clearing the lists, so a fresh initial set is appended
        after the lines already there. */
    method Reset()
      requires Valid()
      modifies this
      ensures Valid()
      ensures shift == Vec(0.0, 0.0)
      ensures verticals == old(verticals) + InitialVerticals(Bounds())
      ensures horizontals == old(horizontals) + InitialHorizontals(Bounds())
      ensures NumberOfLines() == old(NumberOfLines()) + |InitialVerticals(Bounds())| + |InitialHorizontals(Bounds())|
    {
      shift := Vec(0.0, 0.0);
      CalculateGrid();
    }
  }

  /** The nested loops of calculate_grid for one list: for each `at` of
      the outer range and each `from` of the inner one, append a segment. */
  method AppendGrid(lines: seq<Line>, o: Orientation, ats: seq<int>, froms: seq<int>, len: int)
    returns (r: seq<Line>)
    ensures r == lines + GridLines(o, ats, froms, len)
  {
    r := lines;
    for p := 0 to |ats|
      invariant r == lines + GridLines(o, ats[..p], froms, len)
    {
      for q := 0 to |froms|
        invariant r == lines + GridLines(o, ats[..p], froms, len) + Row(o, ats[p], froms[..q], len)
      {
        r := r + [Segment(o, ats[p], froms[q], len)];
        assert Row(o, ats[p], froms[..q + 1], len) == Row(o, ats[p], froms[..q], len) + [Segment(o, ats[p], froms[q], len)];
      }
      assert froms[..|froms|] == froms;
      assert ats[..p + 1][..p] == ats[..p];
    }
    assert ats[..|ats|] == ats;
  }

  /** One recycling loop of Grid.update: iterate over a copy of the list,
      and for each line that crosses an edge remove it from the live list
      and append its new position. */
  method RecycleLines(b: Box, v: Variant, o: Orientation, lines: seq<Line>, cx: int, cy: int) returns (r: seq<Line>)
    ensures r == Recycle(b, v, o, lines, lines, cx, cy)
  {
    r := lines;
    for k := 0 to |lines|
      invariant Recycle(b, v, o, r, lines[k..], cx, cy) == Recycle(b, v, o, lines, lines, cx, cy)
    {
      var l := lines[k];
      assert lines[k..][1..] == lines[k + 1..];
      match Relocate(b, v, o, l, cx, cy)
      case None =>
      case Some(n) =>
        r := RemoveFirst(r, l) + [n];
    }
  }

  lemma RelocateShaped(b: Box, v: Variant, o: Orientation, l: Line, cx: int, cy: int)
    ensures Shaped(o, l, LineLength(b, o)) && Relocate(b, v, o, l, cx, cy).Some? ==>
      Shaped(o, Relocate(b, v, o, l, cx, cy).value, LineLength(b, o))
  {
  }

  lemma RecycleShaped(b: Box, v: Variant, o: Orientation, ls: seq<Line>, cx: int, cy: int)
    ensures (forall l :: l in ls ==> Shaped(o, l, LineLength(b, o))) ==>
      forall l :: l in Recycle(b, v, o, ls, ls, cx, cy) ==> Shaped(o, l, LineLength(b, o))
  {
    RecycleContents(b, v, o, ls, cx, cy);
    Partition(b, v, o, ls, cx, cy);
    var r := Recycle(b, v, o, ls, ls, cx, cy);
    if forall l :: l in ls ==> Shaped(o, l, LineLength(b, o)) {
      forall l | l in r
        ensures Shaped(o, l, LineLength(b, o))
      {
        assert l in multiset(r);
        if l !in Kept(b, v, o, ls, cx, cy) {
          assert l in multiset(Images(b, v, o, ls, cx, cy));
          var m :| m in ls && Relocate(b, v, o, m, cx, cy) == Some(l);
          RelocateShaped(b, v, o, m, cx, cy);
        }
      }
    }
  }

  /** Tile index to pixel and back is the identity: the conversions
      round-trip under any shift. */
  lemma ConversionRoundTrip(g: Grid, pos: Cell)
    requires g.Valid()
    ensures g.ConvertLocalCoordinatesToPos(g.ConvertPosToCoordinates(pos)) == pos
  {
    var v := g.ConvertPosToCoordinates(pos);
    var tw, th := g.tileWidth as real, g.tileHeight as real;
    assert v.x - g.shift.x == pos.x as real * tw;
    assert (pos.x as real * tw) / tw == pos.x as real;
    assert v.y - g.shift.y == pos.y as real * th;
    assert (pos.y as real * th) / th == pos.y as real;
  }

  /** Pixel to local tile index finds the tile containing the pixel: the
      pixel lies in that tile's rectangle on screen. */
  lemma LocalTileContains(g: Grid, v: Vec)
    requires g.Valid()
    ensures var c := g.ConvertPosToCoordinates(g.ConvertLocalCoordinatesToPos(v));
      && c.x <= v.x < c.x + g.tileWidth as real
      && c.y <= v.y < c.y + g.tileHeight as real
  {
    var p := g.ConvertLocalCoordinatesToPos(v);
    FloorDivBrackets(v.x - g.shift.x, g.tileWidth);
    FloorDivBrackets(v.y - g.shift.y, g.tileHeight);
    assert (p.x * g.tileWidth) as real == p.x as real * g.tileWidth as real;
    assert (p.y * g.tileHeight) as real == p.y as real * g.tileHeight as real;
    assert (p.x as real + 1.0) * g.tileWidth as real == p.x as real * g.tileWidth as real + g.tileWidth as real;
    assert (p.y as real + 1.0) * g.tileHeight as real == p.y as real * g.tileHeight as real + g.tileHeight as real;
  }

  /** World conversion is floor division of the pixel by the tile size, the
      local conversion of an unshifted grid. */
  lemma WorldTileContains(g: Grid, v: Vec)
    requires g.Valid()
    ensures var c := g.ConvertWorldCoordinatesToPos(v);
      && c.x as real * g.tileWidth as real <= v.x < (c.x as real + 1.0) * g.tileWidth as real
      && c.y as real * g.tileHeight as real <= v.y < (c.y as real + 1.0) * g.tileHeight as real
    ensures g.shift == Vec(0.0, 0.0) ==> g.ConvertWorldCoordinatesToPos(v) == g.ConvertLocalCoordinatesToPos(v)
  {
    FloorDivBrackets(v.x, g.tileWidth);
    FloorDivBrackets(v.y, g.tileHeight);
  }

  lemma FloorDivBrackets(s: real, t: int)
    requires t > 0
    ensures (s / t as real).Floor as real * t as real <= s
    ensures s < ((s / t as real).Floor as real + 1.0) * t as real
  {
    var tr := t as real;
    var q := s / tr;
    assert q * tr == s;
    ScaleBelow(q.Floor as real, q, tr, s);
    ScaleAbove(q, q.Floor as real + 1.0, tr, s);
  }

  lemma ScaleBelow(a: real, q: real, c: real, s: real)
    requires a <= q && c > 0.0 && q * c == s
    ensures a * c <= s
  {
  }

  lemma ScaleAbove(q: real, b: real, c: real, s: real)
    requires q < b && c > 0.0 && q * c == s
    ensures s < b * c
  {
  }
}
