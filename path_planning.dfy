/**
 * The raster vectoriser of src/services/path_planning_service.py as the
 * source runs it: a row-major scan over the mask, a depth-first search with
 * an explicit stack over a `visited` grid, the greedy nearest-neighbour
 * reordering of each component and the filter that keeps strokes of two or
 * more points. Each method is proved against the functions of Contours.
 */
module PathPlanning {
  import opened Raster
  import opened Contours
  import opened EraserCoverage

  /** A (row, column) grid cell, as the search stack holds them. */
  type Cell = (int, int)

  /** The (x, y) = (column, row) point of a cell, as the contour stores it. */
  function AsPoint(cell: Cell): Point
  {
    Point(cell.1, cell.0)
  }

  /** The eight (row, column) offsets, in the order the search tries them. */
  const Offsets: seq<Cell> := [(-1, -1), (-1, 0), (-1, 1), (0, -1), (0, 1), (1, -1), (1, 0), (1, 1)]

  function Neighbour(i: int, j: int, n: nat): Cell
    requires n < 8
  {
    (i + Offsets[n].0, j + Offsets[n].1)
  }

  /** Every 8-neighbour of a pixel is one of the offsets away from it. */
  lemma AdjacentIsNeighbour(i: int, j: int, q: Point) returns (n: nat)
    requires Adjacent(Point(j, i), q)
    ensures n < 8 && Neighbour(i, j, n) == (q.y, q.x)
  {
    var di, dj := q.y - i, q.x - j;
    n := if di == -1 then dj + 1 else if di == 0 then (if dj == -1 then 3 else 4) else dj + 6;
  }

  /** The search pushes a cell when it lies inside the mask, is not yet visited and is foreground. */
  predicate Pushable(img: Image, h: nat, w: nat, visited: array2<bool>, cell: Cell)
    reads visited
    requires Rectangular(img, h, w) && visited.Length0 == h && visited.Length1 == w
  {
    0 <= cell.0 < h && 0 <= cell.1 < w && !visited[cell.0, cell.1] && img[cell.0][cell.1] != 0
  }

  /** The cells the search pushes around (i, j) from the first n offsets, in order. */
  function Candidates(img: Image, h: nat, w: nat, visited: array2<bool>, i: int, j: int, n: nat): (r: seq<Cell>)
    reads visited
    requires Rectangular(img, h, w) && visited.Length0 == h && visited.Length1 == w && n <= 8
  {
    if n == 0 then []
    else
      var cell := Neighbour(i, j, n - 1);
      Candidates(img, h, w, visited, i, j, n - 1) + (if Pushable(img, h, w, visited, cell) then [cell] else [])
  }

  /** Every pushed cell is an unvisited foreground 8-neighbour. */
  lemma {:induction false} CandidatesSound(img: Image, h: nat, w: nat, visited: array2<bool>, i: int, j: int, n: nat)
    requires Rectangular(img, h, w) && visited.Length0 == h && visited.Length1 == w && n <= 8
    ensures forall cell :: cell in Candidates(img, h, w, visited, i, j, n) ==>
              Pushable(img, h, w, visited, cell) && Adjacent(Point(j, i), AsPoint(cell))
  {
    if n > 0 {
      CandidatesSound(img, h, w, visited, i, j, n - 1);
    }
  }

  /** Every unvisited foreground 8-neighbour is pushed. */
  lemma CandidatesComplete(img: Image, h: nat, w: nat, visited: array2<bool>, i: int, j: int, q: Point)
    requires Rectangular(img, h, w) && visited.Length0 == h && visited.Length1 == w
    requires Adjacent(Point(j, i), q) && Pushable(img, h, w, visited, (q.y, q.x))
    ensures (q.y, q.x) in Candidates(img, h, w, visited, i, j, 8)
  {
    var n := AdjacentIsNeighbour(i, j, q);
    CandidatesHas(img, h, w, visited, i, j, n, 8);
  }

  lemma {:induction false} CandidatesHas(img: Image, h: nat, w: nat, visited: array2<bool>, i: int, j: int, n: nat, m: nat)
    requires Rectangular(img, h, w) && visited.Length0 == h && visited.Length1 == w
    requires n < m <= 8 && Pushable(img, h, w, visited, Neighbour(i, j, n))
    ensures Neighbour(i, j, n) in Candidates(img, h, w, visited, i, j, m)
    decreases m
  {
    if n < m - 1 {
      CandidatesHas(img, h, w, visited, i, j, n, m - 1);
    }
  }

  /** The visited grid holds exactly the cells of `seen`. */
  ghost predicate Mirrors(visited: array2<bool>, h: nat, w: nat, seen: set<Point>)
    reads visited
    requires visited.Length0 == h && visited.Length1 == w
  {
    forall r, c :: 0 <= r < h && 0 <= c < w ==> visited[r, c] == (Point(c, r) in seen)
  }

  /** The inner loop of dfs: push each unvisited foreground neighbour of (i, j), in offset order. */
  method PushNeighbours(img: Image, h: nat, w: nat, visited: array2<bool>, i: int, j: int, stack: seq<Cell>,
                        ghost seen: set<Point>)
    returns (pushed: seq<Cell>)
    requires Rectangular(img, h, w) && visited.Length0 == h && visited.Length1 == w && Mirrors(visited, h, w, seen)
    ensures pushed == stack + Candidates(img, h, w, visited, i, j, 8)
    ensures forall t :: |stack| <= t < |pushed| ==>
              Ink(img, AsPoint(pushed[t])) && AsPoint(pushed[t]) !in seen && Adjacent(Point(j, i), AsPoint(pushed[t]))
    ensures forall q :: Adjacent(Point(j, i), q) && Ink(img, q) && q !in seen ==> (q.y, q.x) in pushed
  {
    pushed := stack;
    for n := 0 to 8
      invariant pushed == stack + Candidates(img, h, w, visited, i, j, n)
    {
      var (ni, nj) := Neighbour(i, j, n);
      if 0 <= ni < h && 0 <= nj < w {
        if !visited[ni, nj] && img[ni][nj] != 0 {
          pushed := pushed + [(ni, nj)];
        }
      }
    }
    CandidatesSound(img, h, w, visited, i, j, 8);
    forall t | |stack| <= t < |pushed|
      ensures Ink(img, AsPoint(pushed[t])) && AsPoint(pushed[t]) !in seen && Adjacent(Point(j, i), AsPoint(pushed[t]))
    {
      assert pushed[t] in Candidates(img, h, w, visited, i, j, 8);
    }
    forall q | Adjacent(Point(j, i), q) && Ink(img, q) && q !in seen ensures (q.y, q.x) in pushed {
      assert Pushable(img, h, w, visited, (q.y, q.x));
      CandidatesComplete(img, h, w, visited, i, j, q);
    }
  }

  /** Every cell of an h-by-w grid, as points. */
  ghost function Cells(h: nat, w: nat): set<Point>
  {
    set r, c | 0 <= r < h && 0 <= c < w :: Point(c, r)
  }

  /** The pixel is one of the eight around some contour pixel. */
  predicate Touches(contour: seq<Point>, p: Point)
  {
    exists m :: 0 <= m < |contour| && Adjacent(contour[m], p)
  }

  /**
   * The state of dfs from `start`, with `initial` the cells visited before
   * it began and `seen` those visited now: the contour holds, in the order
   * first popped, the foreground cells visited since, each touching an
   * earlier one; every stacked cell is foreground and touches the contour;
   * and every foreground neighbour of a contour pixel is visited or stacked.
   */
  ghost predicate Searching(img: Image, h: nat, w: nat, initial: set<Point>, seen: set<Point>, start: Point,
                            contour: seq<Point>, stack: seq<Cell>)
  {
    && Rectangular(img, h, w)
    && (forall t :: 0 <= t < |stack| ==> Ink(img, AsPoint(stack[t])))
    && (contour == [] ==> stack == [(start.y, start.x)] && seen == initial)
    && (contour != [] ==> contour[0] == start)
    && NoRepeats(contour) && Connected(contour)
    && (forall p :: p in contour ==> Ink(img, p) && p !in initial)
    && (forall p :: p in seen <==> p in initial || p in contour)
    && (forall p, q :: p in contour && Adjacent(p, q) && Ink(img, q) ==> q in seen || (q.y, q.x) in stack)
    && (contour != [] ==>
          forall t :: 0 <= t < |stack| ==> Touches(contour, AsPoint(stack[t])))
  }

  /** The cell on top of the stack is a foreground pixel, and visited only once the contour has begun. */
  lemma SearchTop(img: Image, h: nat, w: nat, initial: set<Point>, seen: set<Point>, start: Point,
                  contour: seq<Point>, stack: seq<Cell>)
    requires Searching(img, h, w, initial, seen, start, contour, stack) && stack != [] && start !in initial
    ensures 0 <= stack[|stack| - 1].0 < h && 0 <= stack[|stack| - 1].1 < w
    ensures img[stack[|stack| - 1].0][stack[|stack| - 1].1] != 0
    ensures AsPoint(stack[|stack| - 1]) in seen ==> contour != []
  {
    assert Ink(img, AsPoint(stack[|stack| - 1]));
  }

  /** Popping a cell visited already only drops it from the stack. */
  lemma SearchSkip(img: Image, h: nat, w: nat, initial: set<Point>, seen: set<Point>, start: Point,
                   contour: seq<Point>, rest: seq<Cell>, cell: Cell)
    requires Searching(img, h, w, initial, seen, start, contour, rest + [cell])
    requires AsPoint(cell) in seen && contour != []
    ensures Searching(img, h, w, initial, seen, start, contour, rest)
  {
    var stack := rest + [cell];
    assert forall t :: 0 <= t < |rest| ==> rest[t] == stack[t];
    forall p, q | p in contour && Adjacent(p, q) && Ink(img, q) && q !in seen ensures (q.y, q.x) in rest {
      assert (q.y, q.x) in stack && (q.y, q.x) != cell;
    }
  }

  /** After a visit, every stacked cell is foreground and touches the lengthened contour. */
  lemma VisitStack(img: Image, contour: seq<Point>, rest: seq<Cell>, cell: Cell, pushed: seq<Cell>, after: seq<Point>)
    requires after == contour + [AsPoint(cell)]
    requires forall t :: 0 <= t < |rest| ==> Ink(img, AsPoint(rest[t]))
    requires contour == [] ==> rest == []
    requires contour != [] ==>
               forall t :: 0 <= t < |rest| ==> Touches(contour, AsPoint(rest[t]))
    requires |pushed| >= |rest| && pushed[..|rest|] == rest
    requires forall t :: |rest| <= t < |pushed| ==> Ink(img, AsPoint(pushed[t])) && Adjacent(AsPoint(cell), AsPoint(pushed[t]))
    ensures forall t :: 0 <= t < |pushed| ==> Ink(img, AsPoint(pushed[t]))
    ensures forall t :: 0 <= t < |pushed| ==> Touches(after, AsPoint(pushed[t]))
  {
    forall t | 0 <= t < |pushed| ensures Ink(img, AsPoint(pushed[t])) {
      if t < |rest| {
        assert pushed[t] == rest[t];
      }
    }
    forall t | 0 <= t < |pushed| ensures Touches(after, AsPoint(pushed[t])) {
      if t >= |rest| {
        assert after[|contour|] == AsPoint(cell);
        assert 0 <= |contour| < |after| && Adjacent(after[|contour|], AsPoint(pushed[t]));
      } else {
        assert pushed[t] == rest[t];
        var k :| 0 <= k < |contour| && Adjacent(contour[k], AsPoint(rest[t]));
        assert after[k] == contour[k];
        assert 0 <= k < |after| && Adjacent(after[k], AsPoint(pushed[t]));
      }
    }
  }

  /** After a visit, every foreground neighbour of the lengthened contour is visited or stacked. */
  lemma VisitClosure(img: Image, seen: set<Point>, contour: seq<Point>, rest: seq<Cell>, cell: Cell, pushed: seq<Cell>)
    requires forall p, q :: p in contour && Adjacent(p, q) && Ink(img, q) ==> q in seen || (q.y, q.x) in rest + [cell]
    requires |pushed| >= |rest| && pushed[..|rest|] == rest
    requires forall q :: Adjacent(AsPoint(cell), q) && Ink(img, q) && q !in seen + {AsPoint(cell)} ==> (q.y, q.x) in pushed
    ensures forall p, q :: p in contour + [AsPoint(cell)] && Adjacent(p, q) && Ink(img, q) ==>
              q in seen + {AsPoint(cell)} || (q.y, q.x) in pushed
  {
    PrefixMembers(rest, pushed);
    forall p, q | p in contour + [AsPoint(cell)] && Adjacent(p, q) && Ink(img, q) && q !in seen + {AsPoint(cell)}
      ensures (q.y, q.x) in pushed
    {
      if p != AsPoint(cell) {
        assert (q.y, q.x) in rest + [cell] && (q.y, q.x) != cell;
      }
    }
  }

  /** Popping an unvisited cell appends it to the contour and stacks its unvisited foreground neighbours. */
  lemma SearchVisit(img: Image, h: nat, w: nat, initial: set<Point>, seen: set<Point>, start: Point,
                    contour: seq<Point>, rest: seq<Cell>, cell: Cell, pushed: seq<Cell>)
    requires Searching(img, h, w, initial, seen, start, contour, rest + [cell])
    requires AsPoint(cell) !in seen
    requires |pushed| >= |rest| && pushed[..|rest|] == rest
    requires forall t :: |rest| <= t < |pushed| ==>
               Ink(img, AsPoint(pushed[t])) && AsPoint(pushed[t]) !in seen + {AsPoint(cell)}
               && Adjacent(AsPoint(cell), AsPoint(pushed[t]))
    requires forall q :: Adjacent(AsPoint(cell), q) && Ink(img, q) && q !in seen + {AsPoint(cell)} ==> (q.y, q.x) in pushed
    ensures Searching(img, h, w, initial, seen + {AsPoint(cell)}, start, contour + [AsPoint(cell)], pushed)
  {
    var x, stack := AsPoint(cell), rest + [cell];
    assert stack[|rest|] == cell;
    assert forall t :: 0 <= t < |rest| ==> rest[t] == stack[t];
    assert Ink(img, x);
    assert x !in contour;
    if contour != [] {
      var m :| 0 <= m < |contour| && Adjacent(contour[m], AsPoint(stack[|rest|]));
    }
    ConnectedSnoc(contour, x);
    NoRepeatsAppend(contour, [x]);
    VisitStack(img, contour, rest, cell, pushed, contour + [x]);
    VisitClosure(img, seen, contour, rest, cell, pushed);
  }

  /**
   * dfs: collects the 8-connected foreground pixels reachable from the
   * unvisited foreground cell (si, sj), marking each visited as it is
   * first popped.
   */
  method Dfs(img: Image, h: nat, w: nat, visited: array2<bool>, si: nat, sj: nat, ghost initial: set<Point>)
    returns (contour: seq<Point>)
    requires Rectangular(img, h, w) && visited.Length0 == h && visited.Length1 == w && Mirrors(visited, h, w, initial)
    requires si < h && sj < w && img[si][sj] != 0 && !visited[si, sj]
    modifies visited
    ensures contour != [] && contour[0] == Point(sj, si)
    ensures NoRepeats(contour) && Connected(contour)
    ensures forall p :: p in contour ==> Ink(img, p) && p !in initial
    ensures Mirrors(visited, h, w, initial + (set p | p in contour))
    ensures forall p, q :: p in contour && Adjacent(p, q) && Ink(img, q) ==> q in initial || q in contour
  {
    var stack: seq<Cell> := [(si, sj)];
    contour := [];
    ghost var seen := initial;
    ghost var start := Point(sj, si);
    while stack != []
      invariant Searching(img, h, w, initial, seen, start, contour, stack)
      invariant Mirrors(visited, h, w, seen)
      decreases Cells(h, w) - seen, |stack|
    {
      SearchTop(img, h, w, initial, seen, start, contour, stack);
      var cell := stack[|stack| - 1];
      var rest := stack[..|stack| - 1];
      SplitLast(stack);
      if visited[cell.0, cell.1] {
        SearchSkip(img, h, w, initial, seen, start, contour, rest, cell);
        stack := rest;
      } else {
        var x := Point(cell.1, cell.0);
        ghost var seen0, contour0 := seen, contour;
        assert x in Cells(h, w) - seen;
        visited[cell.0, cell.1] := true;
        seen := seen + {x};
        contour := contour + [x];
        var pushed := PushNeighbours(img, h, w, visited, cell.0, cell.1, rest, seen);
        SearchVisit(img, h, w, initial, seen0, start, contour0, rest, cell, pushed);
        stack := pushed;
      }
    }
    assert forall p :: p in seen <==> p in (initial + (set p | p in contour));
  }

  /** The first of the nearest points is the one NearestIndex picks. */
  lemma NearestUnique(pts: seq<Point>, current: Point, k: nat)
    requires k < |pts|
    requires forall t :: 0 <= t < |pts| ==> DistSq(pts[k], current) <= DistSq(pts[t], current)
    requires forall t :: 0 <= t < k ==> DistSq(pts[k], current) < DistSq(pts[t], current)
    ensures k == NearestIndex(pts, current)
  {
    var n := NearestIndex(pts, current);
    assert !(k < n) && !(n < k);
  }

  /** One more stroke is kept after the others when it has two or more points. */
  lemma KeptSnoc(init: seq<seq<Point>>, s: seq<Point>)
    ensures Kept(init + [s]) == Kept(init) + if |s| > 1 then [s] else []
  {
    assert (init + [s])[..|init|] == init;
  }

  lemma KeptPrefix(segs: seq<seq<Point>>, i: nat)
    requires i < |segs|
    ensures Kept(segs[..i + 1]) == Kept(segs[..i]) + if |segs[i]| > 1 then [segs[i]] else []
  {
    assert segs[..i + 1] == segs[..i] + [segs[i]];
    KeptSnoc(segs[..i], segs[i]);
  }

  /** One more component contributes its strokes after the others'. */
  lemma AllEmittedSnoc(cs: seq<seq<Point>>, c: seq<Point>)
    ensures AllEmitted(cs + [c]) == AllEmitted(cs) + Emitted(c)
  {
    assert (cs + [c])[..|cs|] == cs;
  }

  /** The inner for-loop of reorder_contour: the first remaining point nearest to `current`, and its squared distance. */
  method Nearest(pts: seq<Point>, current: Point) returns (k: nat, d: int)
    requires pts != []
    ensures k == NearestIndex(pts, current) && d == DistSq(pts[k], current)
  {
    var found := false;
    k, d := 0, 0;
    for i := 0 to |pts|
      invariant found <==> i > 0
      invariant found ==> k < i && d == DistSq(pts[k], current)
      invariant forall t :: 0 <= t < i ==> d <= DistSq(pts[t], current)
      invariant k <= i
      invariant forall t :: 0 <= t < k ==> d < DistSq(pts[t], current)
    {
      var dx := pts[i].x - current.x;
      var dy := pts[i].y - current.y;
      var distSq := dx * dx + dy * dy;
      if !found || distSq < d {
        d := distSq;
        k := i;
      }
      found := true;
    }
    NearestUnique(pts, current, k);
  }

  /** The first stroke of reorder_contour is walked from the first point. */
  lemma ReorderFirst(points: seq<Point>)
    requires points != []
    ensures var w := Chain(points[0], points[1..]); Reorder(points) == [[points[0]] + w.tail] + Reorder(w.left)
  {
  }

  /** The inner loop of reorder_contour: one stroke walked from `start`, and the points it leaves. */
  method WalkStroke(start: Point, points: seq<Point>) returns (segment: seq<Point>, left: seq<Point>)
    ensures segment == [start] + Chain(start, points).tail && left == Chain(start, points).left
  {
    var current := start;
    segment := [current];
    left := points;
    while left != []
      invariant segment + Chain(current, left).tail == [start] + Chain(start, points).tail
      invariant Chain(current, left).left == Chain(start, points).left
      decreases |left|
    {
      var k, d := Nearest(left, current);
      if d <= MaxStepSq {
        ghost var w := Chain(left[k], Remove(left, k));
        AppendAssoc(segment, [left[k]], w.tail);
        current := left[k];
        left := Remove(left, k);
        segment := segment + [current];
      } else {
        assert Chain(current, left) == Walk([], left);
        break;
      }
    }
    assert Chain(current, left) == Walk([], left);
    assert segment + [] == segment;
  }

  /** reorder_contour, popping from a working copy of the points: computes Reorder. */
  method ReorderContour(points: seq<Point>) returns (segments: seq<seq<Point>>)
    ensures segments == Reorder(points)
  {
    segments := [];
    var pts := points;
    while pts != []
      invariant segments + Reorder(pts) == Reorder(points)
      decreases |pts|
    {
      ReorderFirst(pts);
      var segment, left := WalkStroke(pts[0], pts[1..]);
      AppendAssoc(segments, [segment], Reorder(left));
      segments := segments + [segment];
      pts := left;
    }
  }

  /** The filter after reordering: appends the strokes of two or more points, in order. */
  method AppendKept(contours: seq<seq<Point>>, ordered: seq<seq<Point>>) returns (r: seq<seq<Point>>)
    ensures r == contours + Kept(ordered)
  {
    r := contours;
    for i := 0 to |ordered|
      invariant r == contours + Kept(ordered[..i])
    {
      KeptPrefix(ordered, i);
      if |ordered[i]| > 1 {
        AppendAssoc(contours, Kept(ordered[..i]), [ordered[i]]);
        r := r + [ordered[i]];
      } else {
        assert Kept(ordered[..i]) + [] == Kept(ordered[..i]);
      }
    }
    assert ordered[..|ordered|] == ordered;
  }

  /** The pixel comes before the scan cursor (i, j) in row-major order. */
  predicate Scanned(p: Point, i: int, j: int)
  {
    p.y < i || (p.y == i && p.x < j)
  }

  /** The components found so far are components in the sense of Contours, short of covering the ink. */
  ghost predicate Found(img: Image, cs: seq<seq<Point>>)
  {
    ComponentShapes(cs) && InkFromSeed(img, cs) && Disjoint(cs) && Closed(img, cs) && SeedOrder(cs)
  }

  /**
   * Where the scan stands at cursor (i, j): the visited pixels are exactly
   * the components' pixels, every ink pixel before the cursor is visited,
   * and every component was seeded before the cursor.
   */
  ghost predicate Cursor(img: Image, cs: seq<seq<Point>>, seen: set<Point>, i: int, j: int)
  {
    && (forall p :: p in seen <==> exists k :: 0 <= k < |cs| && p in cs[k])
    && (forall p :: Ink(img, p) && Scanned(p, i, j) ==> p in seen)
    && (forall k :: 0 <= k < |cs| ==> cs[k] != [] && Scanned(cs[k][0], i, j))
  }

  lemma ScanStart(img: Image)
    ensures Found(img, []) && Cursor(img, [], {}, 0, 0)
  {
  }

  /** A pixel skipped by the scan (background, or visited already) moves the cursor on. */
  lemma ScanSkip(img: Image, cs: seq<seq<Point>>, seen: set<Point>, i: nat, j: nat)
    requires Cursor(img, cs, seen, i, j) && i < |img| && j < |img[i]|
    requires img[i][j] != 0 ==> Point(j, i) in seen
    ensures Cursor(img, cs, seen, i, j + 1)
  {
    forall p | Ink(img, p) && Scanned(p, i, j + 1) ensures p in seen {
      if !Scanned(p, i, j) {
        assert p == Point(j, i);
      }
    }
  }

  /** The end of a row is the start of the next. */
  lemma RowEnd(img: Image, h: nat, w: nat, cs: seq<seq<Point>>, seen: set<Point>, i: nat)
    requires Rectangular(img, h, w) && InkFromSeed(img, cs)
    requires Cursor(img, cs, seen, i, w)
    ensures Cursor(img, cs, seen, i + 1, 0)
  {
    forall k | 0 <= k < |cs| ensures Scanned(cs[k][0], i + 1, 0) {
      assert cs[k][0] in cs[k];
      assert Ink(img, cs[k][0]) && Scanned(cs[k][0], i, w);
    }
    forall p | Ink(img, p) && Scanned(p, i + 1, 0) ensures p in seen {
      assert p.x < w;
      assert Scanned(p, i, w);
    }
  }

  /** After the last row the components cover the ink. */
  lemma ScanDone(img: Image, h: nat, w: nat, cs: seq<seq<Point>>, seen: set<Point>)
    requires Rectangular(img, h, w) && Found(img, cs) && Cursor(img, cs, seen, h, 0)
    ensures Components(img, h, w, cs)
  {
  }

  /** A new component holding every ink neighbour not in the earlier ones keeps every component closed. */
  lemma StepClosed(img: Image, cs: seq<seq<Point>>, seen: set<Point>, c: seq<Point>)
    requires Closed(img, cs)
    requires forall p :: p in seen <==> exists k :: 0 <= k < |cs| && p in cs[k]
    requires forall p :: p in c ==> Ink(img, p) && p !in seen
    requires forall p, q :: p in c && Adjacent(p, q) && Ink(img, q) ==> q in seen || q in c
    ensures Closed(img, cs + [c])
  {
    var after := cs + [c];
    forall p, q | q in seen && Adjacent(p, q) && Ink(img, p) ensures p in seen {
      var l :| 0 <= l < |cs| && q in cs[l];
      assert Adjacent(q, p);
      assert p in cs[l];
    }
    forall k, p, q | 0 <= k < |after| && p in after[k] && Adjacent(p, q) && Ink(img, q) ensures q in after[k] {
      if k < |cs| {
        assert after[k] == cs[k];
      } else {
        assert after[k] == c;
      }
    }
  }

  /** A component seeded at the cursor starts at its raster-first pixel and after every earlier seed. */
  lemma StepSeeds(img: Image, cs: seq<seq<Point>>, seen: set<Point>, i: int, j: int, c: seq<Point>)
    requires ComponentShapes(cs) && InkFromSeed(img, cs) && SeedOrder(cs)
    requires forall p :: Ink(img, p) && Scanned(p, i, j) ==> p in seen
    requires forall k :: 0 <= k < |cs| ==> Scanned(cs[k][0], i, j)
    requires c != [] && c[0] == Point(j, i)
    requires forall p :: p in c ==> Ink(img, p) && p !in seen
    ensures InkFromSeed(img, cs + [c]) && SeedOrder(cs + [c])
  {
    var after := cs + [c];
    forall k, p | 0 <= k < |after| && p in after[k] ensures Ink(img, p) && RasterLeq(after[k][0], p) {
      if k < |cs| {
        assert after[k] == cs[k];
      } else {
        assert after[k] == c;
        assert !Scanned(p, i, j);
      }
    }
    forall k, l | 0 <= k < l < |after| && after[k] != [] && after[l] != []
      ensures RasterLeq(after[k][0], after[l][0]) && after[k][0] != after[l][0]
    {
      assert after[k] == cs[k];
      if l < |cs| {
        assert after[l] == cs[l];
      } else {
        assert after[l] == c;
        assert Scanned(cs[k][0], i, j);
      }
    }
  }

  /** The visited pixels grow by the new component, and the cursor moves past its seed. */
  lemma StepCover(img: Image, cs: seq<seq<Point>>, seen: set<Point>, i: int, j: int, c: seq<Point>)
    requires Cursor(img, cs, seen, i, j)
    requires c != [] && c[0] == Point(j, i)
    ensures Cursor(img, cs + [c], seen + (set x | x in c), i, j + 1)
  {
    var after, grown := cs + [c], seen + (set x | x in c);
    forall p | p in grown ensures exists k :: 0 <= k < |after| && p in after[k] {
      if p !in seen {
        assert p in after[|cs|];
      } else {
        var k :| 0 <= k < |cs| && p in cs[k];
        assert p in after[k];
      }
    }
    forall p, k | 0 <= k < |after| && p in after[k] ensures p in grown {
      if k < |cs| {
        assert after[k] == cs[k];
      } else {
        assert after[k] == c;
      }
    }
    assert Point(j, i) in c;
    forall k | 0 <= k < |after| ensures after[k] != [] && Scanned(after[k][0], i, j + 1) {
      if k < |cs| {
        assert after[k] == cs[k];
      } else {
        assert after[k] == c;
      }
    }
  }

  /** A new non-empty, repeat-free, connected component of unvisited pixels keeps the components disjoint. */
  lemma StepShapes(cs: seq<seq<Point>>, seen: set<Point>, c: seq<Point>)
    requires ComponentShapes(cs) && Disjoint(cs)
    requires forall k, p :: 0 <= k < |cs| && p in cs[k] ==> p in seen
    requires c != [] && NoRepeats(c) && Connected(c)
    requires forall p :: p in c ==> p !in seen
    ensures ComponentShapes(cs + [c]) && Disjoint(cs + [c])
  {
    var after := cs + [c];
    forall k | 0 <= k < |after| ensures after[k] != [] && NoRepeats(after[k]) && Connected(after[k]) {
      if k < |cs| {
        assert after[k] == cs[k];
      } else {
        assert after[k] == c;
      }
    }
    forall k, l, p | 0 <= k < l < |after| && p in after[k] ensures p !in after[l] {
      assert after[k] == cs[k];
      if l < |cs| {
        assert after[l] == cs[l];
      } else {
        assert after[l] == c;
        assert p in seen;
      }
    }
  }

  /** A new component, found from the unvisited ink seed (i, j), extends the facts one pixel on. */
  lemma ScanStep(img: Image, cs: seq<seq<Point>>, seen: set<Point>, i: nat, j: nat, c: seq<Point>)
    requires Found(img, cs) && Cursor(img, cs, seen, i, j)
    requires c != [] && c[0] == Point(j, i) && NoRepeats(c) && Connected(c)
    requires forall p :: p in c ==> Ink(img, p) && p !in seen
    requires forall p, q :: p in c && Adjacent(p, q) && Ink(img, q) ==> q in seen || q in c
    ensures Found(img, cs + [c]) && Cursor(img, cs + [c], seen + (set p | p in c), i, j + 1)
  {
    StepShapes(cs, seen, c);
    StepClosed(img, cs, seen, c);
    StepSeeds(img, cs, seen, i, j, c);
    StepCover(img, cs, seen, i, j, c);
  }

  /** The body of the scan at pixel (i, j): an unvisited ink pixel seeds a search, whose strokes are appended. */
  method ScanPixel(img: Image, h: nat, w: nat, visited: array2<bool>, i: nat, j: nat,
                   contours: seq<seq<Point>>, ghost components: seq<seq<Point>>, ghost seen: set<Point>)
    returns (contours': seq<seq<Point>>, ghost components': seq<seq<Point>>, ghost seen': set<Point>)
    requires visited.Length0 == h && visited.Length1 == w && i < h && j < w && Rectangular(img, h, w)
    requires Found(img, components) && Cursor(img, components, seen, i, j) && Mirrors(visited, h, w, seen)
    requires contours == AllEmitted(components)
    modifies visited
    ensures Found(img, components') && Cursor(img, components', seen', i, j + 1) && Mirrors(visited, h, w, seen')
    ensures contours' == AllEmitted(components')
  {
    contours', components', seen' := contours, components, seen;
    if img[i][j] != 0 && !visited[i, j] {
      var rawContour := Dfs(img, h, w, visited, i, j, seen);
      ScanStep(img, components, seen, i, j, rawContour);
      AllEmittedSnoc(components, rawContour);
      seen' := seen + (set p | p in rawContour);
      components' := components + [rawContour];
      if |rawContour| > 1 {
        var ordered := ReorderContour(rawContour);
        contours' := AppendKept(contours, ordered);
      } else {
        assert contours + [] == contours;
      }
    } else {
      ScanSkip(img, components, seen, i, j);
    }
  }

  /** One row of the scan. */
  method ScanLine(img: Image, h: nat, w: nat, visited: array2<bool>, i: nat,
                  contours: seq<seq<Point>>, ghost components: seq<seq<Point>>, ghost seen: set<Point>)
    returns (contours': seq<seq<Point>>, ghost components': seq<seq<Point>>, ghost seen': set<Point>)
    requires visited.Length0 == h && visited.Length1 == w && i < h && Rectangular(img, h, w)
    requires Found(img, components) && Cursor(img, components, seen, i, 0) && Mirrors(visited, h, w, seen)
    requires contours == AllEmitted(components)
    modifies visited
    ensures Found(img, components') && Cursor(img, components', seen', i + 1, 0) && Mirrors(visited, h, w, seen')
    ensures contours' == AllEmitted(components')
  {
    contours', components', seen' := contours, components, seen;
    for j := 0 to w
      invariant Found(img, components') && Cursor(img, components', seen', i, j) && Mirrors(visited, h, w, seen')
      invariant contours' == AllEmitted(components')
    {
      contours', components', seen' := ScanPixel(img, h, w, visited, i, j, contours', components', seen');
    }
    RowEnd(img, h, w, components', seen', i);
  }

  /**
   * _extract_contours: scans the mask row by row; each unvisited ink pixel
   * seeds a depth-first search, whose component of two or more pixels is
   * reordered into strokes, of which those with two or more points are
   * kept. `components` are the searches' results, in order.
   */
  method ExtractContours(img: Image, h: nat, w: nat) returns (contours: seq<seq<Point>>, ghost components: seq<seq<Point>>)
    requires Rectangular(img, h, w)
    ensures Components(img, h, w, components)
    ensures contours == AllEmitted(components)
    ensures forall s :: s in contours ==> |s| >= 2 && Steps(s)
    ensures forall s, p :: s in contours && p in s ==> Ink(img, p)
    ensures NoRepeats(Flatten(contours))
    ensures InkPoints(img) == {} ==> contours == []
  {
    var visited := new bool[h, w]((_, _) => false);
    contours := [];
    components := [];
    ghost var seen: set<Point> := {};
    ScanStart(img);
    for i := 0 to h
      invariant Found(img, components) && Cursor(img, components, seen, i, 0) && Mirrors(visited, h, w, seen)
      invariant contours == AllEmitted(components)
    {
      contours, components, seen := ScanLine(img, h, w, visited, i, contours, components, seen);
    }
    ScanDone(img, h, w, components, seen);
    EmittedProperties(img, h, w, components);
    NoInkNoContours(img, h, w, components);
  }

  /** mark_covered: sets the clipped footprint of `center` in the covered grid, and nothing else. */
  method MarkCovered(covered: array2<bool>, h: nat, w: nat, rectW: nat, rectH: nat, center: Point)
    requires covered.Length0 == h && covered.Length1 == w
    modifies covered
    ensures forall r, c :: 0 <= r < h && 0 <= c < w ==>
              covered[r, c] == (old(covered[r, c]) || InFootprint(h, w, rectW, rectH, center, Point(c, r)))
  {
    var x1 := Max(0, center.y - rectH / 2);
    var y1 := Max(0, center.x - rectW / 2);
    var x2 := Min(h, center.y + rectH / 2);
    var y2 := Min(w, center.x + rectW / 2);
    var r := x1;
    while r < x2
      invariant x1 <= r <= Max(x1, x2)
      invariant forall rr, cc :: 0 <= rr < h && 0 <= cc < w ==>
                  covered[rr, cc] == (old(covered[rr, cc]) || (x1 <= rr < r && y1 <= cc < y2))
    {
      var c := y1;
      while c < y2
        invariant y1 <= c <= Max(y1, y2)
        invariant forall rr, cc :: 0 <= rr < h && 0 <= cc < w ==>
                    covered[rr, cc] == (old(covered[rr, cc]) || (x1 <= rr < r && y1 <= cc < y2) || (rr == r && y1 <= cc < c))
      {
        covered[r, c] := true;
        c := c + 1;
      }
      r := r + 1;
    }
  }

  /** The rebuild of `remaining`: the points not yet covered. */
  method Uncovered(covered: array2<bool>, h: nat, w: nat, remaining: set<Point>) returns (newly: set<Point>)
    requires covered.Length0 == h && covered.Length1 == w
    requires forall p :: p in remaining ==> 0 <= p.x < w && 0 <= p.y < h
    ensures forall p :: p in newly <==> p in remaining && !covered[p.y, p.x]
  {
    newly := {};
    var todo := remaining;
    while todo != {}
      invariant todo <= remaining
      invariant forall p :: p in newly <==> p in remaining && p !in todo && !covered[p.y, p.x]
      decreases todo
    {
      var pt :| pt in todo;
      if !covered[pt.y, pt.x] {
        newly := newly + {pt};
      }
      todo := todo - {pt};
    }
  }

  /**
   * One round of the planner after a pick: mark_covered stamps the pick's
   * footprint, then `remaining` is rebuilt from the ink still uncovered.
   */
  method StampAndFilter(covered: array2<bool>, h: nat, w: nat, rectW: nat, rectH: nat, ghost centers: seq<Point>,
                        remaining: set<Point>, current: Point)
    returns (newly: set<Point>)
    requires covered.Length0 == h && covered.Length1 == w && CoveredGrid(covered, h, w, rectW, rectH, centers)
    requires forall p :: p in remaining ==> 0 <= p.x < w && 0 <= p.y < h
    modifies covered
    ensures CoveredGrid(covered, h, w, rectW, rectH, centers + [current])
    ensures forall p :: p in newly <==> p in remaining && !CoveredBy(h, w, rectW, rectH, centers + [current], |centers| + 1, p)
  {
    MarkCovered(covered, h, w, rectW, rectH, current);
    forall p ensures CoveredBy(h, w, rectW, rectH, centers + [current], |centers| + 1, p)
                     <==> CoveredBy(h, w, rectW, rectH, centers, |centers|, p) || InFootprint(h, w, rectW, rectH, current, p)
    {
      CoveredSnoc(h, w, rectW, rectH, centers, current, p);
    }
    newly := Uncovered(covered, h, w, remaining);
  }

  /**
   * _plan_eraser_centers: starts at a top-left ink pixel, stamps each
   * center's footprint onto the covered grid, drops the covered ink, and
   * jumps to an uncovered ink pixel nearest the last center, until no ink is
   * left. Centers are (x, y) = (column, row); each rect is the footprint's
   * unclipped top-left corner.
   */
  method PlanEraserCenters(img: Image, h: nat, w: nat, rectW: nat, rectH: nat) returns (centers: seq<Point>, rects: seq<Point>)
    requires Rectangular(img, h, w)
    requires MarkedPoints(img) != {} ==> rectW >= 2 && rectH >= 2
    ensures ErasePlan(img, h, w, rectW, rectH, centers)
    ensures rects == Corners(centers, rectW, rectH)
  {
    var covered := new bool[h, w]((_, _) => false);
    var remaining := MarkedPoints(img);
    if remaining == {} {
      PlanNone(img, h, w, rectW, rectH);
      return [], [];
    }
    centers, rects := [], [];
    PlanStart(img, h, w, rectW, rectH);
    LeastExists(remaining, Corner);
    var current :| current in remaining && forall p :: p in remaining ==> Corner(current) <= Corner(p);
    while remaining != {}
      invariant Planning(img, h, w, rectW, rectH, centers, remaining)
      invariant remaining != {} ==> NextPick(img, centers, remaining, current)
      invariant remaining == {} ==> centers != []
      invariant CoveredGrid(covered, h, w, rectW, rectH, centers)
      invariant rects == Corners(centers, rectW, rectH)
      decreases remaining
    {
      var newly := StampAndFilter(covered, h, w, rectW, rectH, centers, remaining, current);
      PlanStep(img, h, w, rectW, rectH, centers, remaining, current, newly);
      CornersSnoc(centers, current, rectW, rectH);
      centers := centers + [current];
      rects := rects + [TopLeft(current, rectW, rectH)];
      remaining := newly;
      if remaining == {} {
        break;
      }
      NearestExists(remaining, current);
      var next :| next in remaining && forall p :: p in remaining ==> DistSq(current, next) <= DistSq(current, p);
      current := next;
    }
    PlanDone(img, h, w, rectW, rectH, centers);
  }

  /** The parameters of _plan_eraser_centers as declared in the class body: no `self`, and no staticmethod decorator. */
  const EraserCentersParams: seq<string> := ["bin_img", "rect_w", "rect_h"]

  /** How Python binds positional arguments to a function defined in a class body. */
  datatype Binding = Bound | TypeError(takes: nat, given: nat)

  /** A call through an instance, `self.f(args)`: the instance is passed first, ahead of the call's own arguments. */
  function BindMethodCall(params: seq<string>, args: nat): (r: Binding)
    ensures r.Bound? <==> |params| == args + 1
    ensures r.TypeError? ==> r.takes == |params| && r.given == args + 1
  {
    if |params| == args + 1 then Bound else TypeError(|params|, args + 1)
  }

  /** A call to a static function: the arguments are passed as they are. */
  function BindStaticCall(params: seq<string>, args: nat): (r: Binding)
    ensures r.Bound? <==> |params| == args
    ensures r.TypeError? ==> r.takes == |params| && r.given == args
  {
    if |params| == args then Bound else TypeError(|params|, args)
  }

  /** As written, plan_erase_path's three-argument call through `self` gives the planner four: it always raises TypeError. */
  lemma EraserCallAsWritten()
    ensures BindMethodCall(EraserCentersParams, 3) == TypeError(3, 4)
  {
  }

  /** With the planner static, as its parameter list intends, the same call binds. */
  lemma EraserCallCorrected()
    ensures BindStaticCall(EraserCentersParams, 3) == Bound
  {
  }

  /**
   * plan_erase_path on an already binarised mask, with the 80 by 40 pixel
   * eraser and the planner called as a static function: one path through
   * the centers.
   */
  method PlanErasePath(img: Image, h: nat, w: nat) returns (vectors: seq<seq<Point>>)
    requires Rectangular(img, h, w)
    ensures |vectors| == 1 && ErasePlan(img, h, w, 80, 40, vectors[0])
  {
    var centers, rects := PlanEraserCenters(img, h, w, 80, 40);
    vectors := [centers];
  }
}
