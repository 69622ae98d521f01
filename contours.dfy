/**
 * What the raster vectoriser computes (src/services/path_planning_service.py,
 * _extract_contours): the 8-connected components of the foreground, each
 * reordered by a greedy nearest-neighbour walk that breaks the stroke when the
 * nearest remaining point is more than sqrt(5) away, keeping only strokes of
 * two or more points.
 */
module Contours {
  import opened Raster

  /** Squared distance above which the walk breaks a stroke. */
  const MaxStepSq := 5

  /** Each point is at most MaxStepSq (squared) from the one before it. */
  predicate Steps(seg: seq<Point>)
  {
    forall i :: 0 <= i < |seg| - 1 ==> DistSq(seg[i + 1], seg[i]) <= MaxStepSq
  }

  /** The lowest index of a point nearest to `cur`: only a strictly nearer point displaces an earlier one. */
  function NearestIndex(pts: seq<Point>, cur: Point): (k: nat)
    requires pts != []
    ensures k < |pts|
    ensures forall i :: 0 <= i < |pts| ==> DistSq(pts[k], cur) <= DistSq(pts[i], cur)
    ensures forall i :: 0 <= i < k ==> DistSq(pts[k], cur) < DistSq(pts[i], cur)
    decreases |pts|
  {
    if |pts| == 1 then 0
    else
      var k := NearestIndex(pts[..|pts| - 1], cur);
      if DistSq(pts[|pts| - 1], cur) < DistSq(pts[k], cur) then |pts| - 1 else k
  }

  /** The list with its k-th element popped. */
  function Remove(s: seq<Point>, k: nat): (r: seq<Point>)
    requires k < |s|
    ensures |r| == |s| - 1
    ensures multiset(r) + multiset{s[k]} == multiset(s)
  {
    assert s == s[..k] + [s[k]] + s[k + 1..];
    s[..k] + s[k + 1..]
  }

  /** One stroke of the walk: the points chained after the start, and those left for later strokes. */
  datatype Walk = Walk(tail: seq<Point>, left: seq<Point>)

  /**
   * Chains from `cur`: pops the nearest remaining point while it lies within
   * MaxStepSq, and stops at the first that does not (or when none remain).
   */
  function Chain(cur: Point, rest: seq<Point>): (w: Walk)
    ensures |w.tail| + |w.left| == |rest|
    ensures multiset(w.tail) + multiset(w.left) == multiset(rest)
    ensures Steps([cur] + w.tail)
    decreases |rest|
  {
    if rest == [] then Walk([], [])
    else
      var k := NearestIndex(rest, cur);
      if DistSq(rest[k], cur) <= MaxStepSq then
        var w := Chain(rest[k], Remove(rest, k));
        StepsCons(cur, [rest[k]] + w.tail);
        Walk([rest[k]] + w.tail, w.left)
      else
        Walk([], rest)
  }

  lemma StepsCons(cur: Point, s: seq<Point>)
    requires s != [] && Steps(s) && DistSq(s[0], cur) <= MaxStepSq
    ensures Steps([cur] + s)
  {
    var t := [cur] + s;
    forall i | 0 <= i < |t| - 1 ensures DistSq(t[i + 1], t[i]) <= MaxStepSq {
      if i > 0 {
        assert t[i + 1] == s[i] && t[i] == s[i - 1];
      }
    }
  }

  /**
   * The walk stops only when nothing is left or the nearest remaining point,
   * seen from the last point chained, is beyond MaxStepSq.
   */
  lemma {:induction false} ChainStopsTooFar(cur: Point, rest: seq<Point>)
    ensures var w := Chain(cur, rest);
            w.left != [] ==> DistSq(w.left[NearestIndex(w.left, Last(cur, w.tail))], Last(cur, w.tail)) > MaxStepSq
    decreases |rest|
  {
    if rest != [] {
      var k := NearestIndex(rest, cur);
      if DistSq(rest[k], cur) <= MaxStepSq {
        var w := Chain(rest[k], Remove(rest, k));
        assert Chain(cur, rest) == Walk([rest[k]] + w.tail, w.left);
        ChainStopsTooFar(rest[k], Remove(rest, k));
        assert Last(cur, [rest[k]] + w.tail) == Last(rest[k], w.tail);
      } else {
        assert Chain(cur, rest) == Walk([], rest);
      }
    }
  }

  /** The point the walk stands on: the last one chained, or the start. */
  function Last(cur: Point, tail: seq<Point>): Point
  {
    if tail == [] then cur else tail[|tail| - 1]
  }

  /** reorder_contour: strokes walked greedily, each starting at the first point still unused. */
  function Reorder(points: seq<Point>): (r: seq<seq<Point>>)
    ensures r == [] <==> points == []
    ensures points != [] ==> r[0] != [] && r[0][0] == points[0]
    ensures forall s :: s in r ==> s != [] && Steps(s)
    decreases |points|
  {
    if points == [] then []
    else
      var w := Chain(points[0], points[1..]);
      [[points[0]] + w.tail] + Reorder(w.left)
  }

  /** The strokes of two or more points, in order. */
  function Kept(segs: seq<seq<Point>>): (r: seq<seq<Point>>)
    ensures forall s :: s in r ==> |s| > 1 && s in segs
    ensures forall s :: s in segs && |s| > 1 ==> s in r
    decreases |segs|
  {
    if segs == [] then []
    else
      var last := segs[|segs| - 1];
      Kept(segs[..|segs| - 1]) + (if |last| > 1 then [last] else [])
  }

  /** The strokes one component contributes: none for a single pixel. */
  function Emitted(comp: seq<Point>): (r: seq<seq<Point>>)
    ensures forall s :: s in r ==> |s| > 1 && Steps(s)
  {
    if |comp| > 1 then Kept(Reorder(comp)) else []
  }

  /** The strokes of every component, component after component. */
  function AllEmitted(cs: seq<seq<Point>>): (r: seq<seq<Point>>)
    ensures forall s :: s in r ==> |s| > 1 && Steps(s)
    decreases |cs|
  {
    if cs == [] then [] else AllEmitted(cs[..|cs| - 1]) + Emitted(cs[|cs| - 1])
  }

  /** The n-th point touches an earlier one. */
  predicate Linked(c: seq<Point>, n: nat)
    requires n < |c|
  {
    exists m :: 0 <= m < n && Adjacent(c[m], c[n])
  }

  /** Every point after the first touches an earlier one. */
  predicate Connected(c: seq<Point>)
  {
    forall n :: 0 < n < |c| ==> Linked(c, n)
  }

  /** Each component is non-empty, free of repeats and connected. */
  predicate ComponentShapes(cs: seq<seq<Point>>)
  {
    forall k :: 0 <= k < |cs| ==> cs[k] != [] && NoRepeats(cs[k]) && Connected(cs[k])
  }

  /** Each component holds only ink and starts at its raster-first pixel. */
  predicate InkFromSeed(img: Image, cs: seq<seq<Point>>)
  {
    forall k, p :: 0 <= k < |cs| && p in cs[k] ==> Ink(img, p) && RasterLeq(cs[k][0], p)
  }

  predicate Disjoint(cs: seq<seq<Point>>)
  {
    forall k, l, p :: 0 <= k < l < |cs| && p in cs[k] ==> p !in cs[l]
  }

  ghost predicate CoversInk(img: Image, cs: seq<seq<Point>>)
  {
    forall p :: Ink(img, p) ==> exists k :: 0 <= k < |cs| && p in cs[k]
  }

  /** Each component holds every ink pixel adjacent to one of its pixels. */
  ghost predicate Closed(img: Image, cs: seq<seq<Point>>)
  {
    forall k, p, q :: 0 <= k < |cs| && p in cs[k] && Adjacent(p, q) && Ink(img, q) ==> q in cs[k]
  }

  /** The components come in raster order of their first pixels. */
  predicate SeedOrder(cs: seq<seq<Point>>)
  {
    forall k, l :: 0 <= k < l < |cs| && cs[k] != [] && cs[l] != [] ==> RasterLeq(cs[k][0], cs[l][0]) && cs[k][0] != cs[l][0]
  }

  /** Appending a point that touches an earlier one (or starts the sequence) keeps it connected. */
  lemma ConnectedSnoc(c: seq<Point>, x: Point)
    requires Connected(c) && (c != [] ==> exists m :: 0 <= m < |c| && Adjacent(c[m], x))
    ensures Connected(c + [x])
  {
    var d := c + [x];
    forall n | 0 < n < |d| ensures Linked(d, n) {
      if n < |c| {
        assert Linked(c, n);
        var m :| 0 <= m < n && Adjacent(c[m], c[n]);
        assert d[m] == c[m] && d[n] == c[n];
      } else {
        var m :| 0 <= m < |c| && Adjacent(c[m], x);
        assert d[m] == c[m] && d[n] == x;
      }
    }
  }

  /**
   * The components found by the scan of an h-by-w mask: non-empty, without
   * repeats, pairwise disjoint, ink only, covering the ink, each closed under
   * 8-adjacency among ink pixels and connected, each starting at its
   * raster-first pixel, and ordered by those first pixels.
   */
  ghost predicate Components(img: Image, h: nat, w: nat, cs: seq<seq<Point>>)
  {
    Rectangular(img, h, w) && ComponentShapes(cs) && InkFromSeed(img, cs) && Disjoint(cs)
    && CoversInk(img, cs) && Closed(img, cs) && SeedOrder(cs)
  }

  /** Flattening a stroke followed by more strokes. */
  lemma FlattenCons(s: seq<Point>, rest: seq<seq<Point>>)
    ensures Flatten([s] + rest) == s + Flatten(rest)
  {
    FlattenAppend([s], rest);
    assert [s][..0] == [];
  }

  /** The strokes of reorder_contour, laid end to end, are a permutation of its input. */
  lemma {:induction false} ReorderPermutation(points: seq<Point>)
    ensures multiset(Flatten(Reorder(points))) == multiset(points)
    decreases |points|
  {
    if points != [] {
      var w := Chain(points[0], points[1..]);
      ReorderPermutation(w.left);
      FlattenCons([points[0]] + w.tail, Reorder(w.left));
      assert points == [points[0]] + points[1..];
    }
  }

  /** Dropping the short strokes keeps a sub-multiset of the points. */
  lemma {:induction false} KeptSub(segs: seq<seq<Point>>)
    ensures multiset(Flatten(Kept(segs))) <= multiset(Flatten(segs))
    decreases |segs|
  {
    if segs != [] {
      var init, last := segs[..|segs| - 1], segs[|segs| - 1];
      KeptSub(init);
      if |last| > 1 {
        FlattenAppend(Kept(init), [last]);
        FlattenCons(last, []);
      } else {
        assert Kept(segs) == Kept(init);
      }
    }
  }

  /** The strokes one component contributes use each of its points at most once. */
  lemma EmittedSub(comp: seq<Point>)
    ensures multiset(Flatten(Emitted(comp))) <= multiset(comp)
  {
    if |comp| > 1 {
      KeptSub(Reorder(comp));
      ReorderPermutation(comp);
    }
  }

  lemma {:induction false} AllEmittedSub(cs: seq<seq<Point>>)
    ensures multiset(Flatten(AllEmitted(cs))) <= multiset(Flatten(cs))
    decreases |cs|
  {
    if cs != [] {
      var init, last := cs[..|cs| - 1], cs[|cs| - 1];
      AllEmittedSub(init);
      EmittedSub(last);
      FlattenAppend(AllEmitted(init), Emitted(last));
    }
  }

  /** Components without repeats and pairwise disjoint lay end to end without repeats. */
  lemma {:induction false} DisjointNoRepeats(cs: seq<seq<Point>>)
    requires forall k :: 0 <= k < |cs| ==> NoRepeats(cs[k])
    requires forall k, l, p :: 0 <= k < l < |cs| && p in cs[k] ==> p !in cs[l]
    ensures NoRepeats(Flatten(cs))
    decreases |cs|
  {
    if cs != [] {
      var init, last := cs[..|cs| - 1], cs[|cs| - 1];
      DisjointNoRepeats(init);
      forall p | p in Flatten(init) ensures p !in last {
        InFlatten(init, p);
        var k :| 0 <= k < |init| && p in init[k];
        assert p in cs[k];
      }
      NoRepeatsAppend(Flatten(init), last);
    }
  }

  /**
   * What the vectoriser promises of its output, given the components: every
   * point is a foreground pixel, no pixel appears twice across all strokes,
   * every stroke has at least two points and steps of squared length at most
   * MaxStepSq.
   */
  lemma EmittedProperties(img: Image, h: nat, w: nat, cs: seq<seq<Point>>)
    requires Components(img, h, w, cs)
    ensures forall s :: s in AllEmitted(cs) ==> |s| >= 2 && Steps(s)
    ensures forall s, p :: s in AllEmitted(cs) && p in s ==> Ink(img, p)
    ensures NoRepeats(Flatten(AllEmitted(cs)))
  {
    var out := AllEmitted(cs);
    DisjointNoRepeats(cs);
    AllEmittedSub(cs);
    SubMultisetNoRepeats(Flatten(out), Flatten(cs));
    forall s, p | s in out && p in s ensures Ink(img, p) {
      var j :| 0 <= j < |out| && out[j] == s;
      InFlatten(out, p);
      assert p in multiset(Flatten(out));
      assert p in Flatten(cs);
      InFlatten(cs, p);
    }
  }

  /** There are components exactly when the mask has foreground; without it the vectoriser yields no strokes. */
  lemma NoInkNoContours(img: Image, h: nat, w: nat, cs: seq<seq<Point>>)
    requires Components(img, h, w, cs)
    ensures cs == [] <==> InkPoints(img) == {}
    ensures InkPoints(img) == {} ==> AllEmitted(cs) == []
  {
    if cs != [] {
      assert cs[0][0] in cs[0];
      assert cs[0][0] in InkPoints(img);
    }
    if InkPoints(img) != {} {
      var p :| p in InkPoints(img);
      assert Ink(img, p);
    }
  }

  /** The diagonal points (m, m), (m + 1, m + 1), ..., up to but excluding (n, n). */
  function Line(m: nat, n: nat): (r: seq<Point>)
    ensures m <= n ==> |r| == n - m
    ensures forall p :: p in r <==> p.x == p.y && m <= p.x < n
    decreases n - m
  {
    if m >= n then [] else [Point(m, m)] + Line(m + 1, n)
  }

  lemma {:induction false} NoRepeatsLine(m: nat, n: nat)
    ensures NoRepeats(Line(m, n))
    decreases n - m
  {
    if m < n {
      NoRepeatsLine(m + 1, n);
      NoRepeatsAppend([Point(m, m)], Line(m + 1, n));
    }
  }

  lemma MultisetCancel(a: multiset<Point>, b: multiset<Point>, x: Point)
    requires a + multiset{x} == b + multiset{x}
    ensures a == b
  {
    forall y ensures a[y] == b[y] {
      assert (a + multiset{x})[y] == (b + multiset{x})[y];
    }
  }

  /** Seen from (m, m), a later point of the line is within reach exactly when it is the next one. */
  lemma DiagonalReach(m: int, p: Point)
    requires p.x == p.y && m < p.x
    ensures DistSq(p, Point(m, m)) <= MaxStepSq <==> p.x == m + 1
  {
    var d := p.x - m;
    assert DistSq(p, Point(m, m)) == d * d + d * d;
    if d >= 2 {
      assert d * d >= 2 * d;
    }
  }

  /** The first point of a line, split off. */
  lemma LineCons(m: nat, n: nat, rest: seq<Point>)
    requires m < n && multiset(rest) + multiset{Point(m, m)} == multiset(Line(m, n))
    ensures Line(m, n) == [Point(m, m)] + Line(m + 1, n)
    ensures multiset(rest) == multiset(Line(m + 1, n))
  {
    MultisetCancel(multiset(rest), multiset(Line(m + 1, n)), Point(m, m));
  }

  /** From (m, m), the nearest point of the rest of the line is the next one. */
  lemma NearestOnLine(m: nat, n: nat, rest: seq<Point>) returns (k: nat)
    requires m + 1 < n && multiset(rest) == multiset(Line(m + 1, n))
    ensures rest != [] && k == NearestIndex(rest, Point(m, m)) && rest[k] == Point(m + 1, m + 1)
    ensures multiset(Remove(rest, k)) == multiset(Line(m + 2, n))
  {
    var cur, next := Point(m, m), Point(m + 1, m + 1);
    assert next in Line(m + 1, n);
    assert next in multiset(rest);
    var i :| 0 <= i < |rest| && rest[i] == next;
    k := NearestIndex(rest, cur);
    var q := rest[k];
    assert q in multiset(rest);
    DiagonalReach(m, next);
    DiagonalReach(m, q);
    LineCons(m + 1, n, Remove(rest, k));
  }

  /**
   * Walking from (m, m) over any arrangement of the rest of the line, the
   * nearest point is always the next one along it.
   */
  lemma {:induction false} ChainAlongLine(m: nat, n: nat, rest: seq<Point>)
    requires m < n && multiset(rest) == multiset(Line(m + 1, n))
    ensures Chain(Point(m, m), rest) == Walk(Line(m + 1, n), [])
    decreases n - m
  {
    if m + 1 == n {
      assert Line(m + 1, n) == [];
      assert |rest| == |multiset(rest)| == 0;
    } else {
      var k := NearestOnLine(m, n, rest);
      var next := rest[k];
      ChainAlongLine(m + 1, n, Remove(rest, k));
      DiagonalReach(m, next);
      assert Line(m + 1, n) == [next] + Line(m + 2, n);
    }
  }

  /** A size-by-size mask whose foreground is exactly the line from (0, 0) to (n - 1, n - 1). */
  ghost predicate DiagonalMask(img: Image, size: nat, n: nat)
  {
    Rectangular(img, size, size) && forall p :: Ink(img, p) <==> p in Line(0, n)
  }

  /** The component holding (0, 0) holds the whole line, by closure under adjacency. */
  lemma LineInOneComponent(img: Image, n: nat, cs: seq<seq<Point>>) returns (k0: nat)
    requires 0 < n && (forall p :: Ink(img, p) <==> p in Line(0, n)) && CoversInk(img, cs) && Closed(img, cs)
    ensures k0 < |cs| && forall p :: p in Line(0, n) ==> p in cs[k0]
  {
    assert Ink(img, Point(0, 0));
    k0 :| 0 <= k0 < |cs| && Point(0, 0) in cs[k0];
    for j := 1 to n
      invariant forall i :: 0 <= i < j ==> Point(i, i) in cs[k0]
    {
      assert Adjacent(Point(j - 1, j - 1), Point(j, j)) && Ink(img, Point(j, j));
    }
  }

  /** Every component starts on the line, so by disjointness there is only the one. */
  lemma OnlyOneComponent(img: Image, n: nat, cs: seq<seq<Point>>, k0: nat)
    requires (forall p :: Ink(img, p) <==> p in Line(0, n)) && ComponentShapes(cs) && InkFromSeed(img, cs)
    requires Disjoint(cs) && k0 < |cs| && forall p :: p in Line(0, n) ==> p in cs[k0]
    ensures |cs| == 1 && k0 == 0
  {
    forall l | 0 <= l < |cs| ensures cs[l][0] in cs[k0] && l == k0 {
      var p := cs[l][0];
      assert p in cs[l] && Ink(img, p);
    }
    assert cs[0][0] in cs[k0] && cs[|cs| - 1][0] in cs[k0];
  }

  /** A component holding exactly the line, without repeats and starting on its raster-first pixel. */
  lemma LineComponent(img: Image, n: nat, c: seq<Point>)
    requires (forall p :: Ink(img, p) <==> p in Line(0, n)) && InkFromSeed(img, [c]) && c != [] && NoRepeats(c)
    requires forall p :: p in Line(0, n) ==> p in c
    ensures c[0] == Point(0, 0) && multiset(c) == multiset(Line(0, n))
  {
    assert [c][0] == c;
    assert c[0] in c && Ink(img, c[0]);
    assert Point(0, 0) in c;
    NoRepeatsMultiset(c);
    NoRepeatsLine(0, n);
    NoRepeatsMultiset(Line(0, n));
    forall p ensures multiset(c)[p] == multiset(Line(0, n))[p] {
      if p in Line(0, n) {
        assert p in c;
      } else {
        assert !Ink(img, p);
      }
    }
  }

  /** The walk over a component holding the line, from (0, 0), is the line in order. */
  lemma ReorderLine(n: nat, c: seq<Point>)
    requires 0 < n && c != [] && c[0] == Point(0, 0) && multiset(c) == multiset(Line(0, n))
    ensures Reorder(c) == [Line(0, n)]
  {
    assert c == [c[0]] + c[1..];
    assert multiset(c[1..]) + multiset{Point(0, 0)} == multiset(c);
    LineCons(0, n, c[1..]);
    ChainAlongLine(0, n, c[1..]);
    assert Reorder([]) == [];
  }

  /** A lone component whose walk is one stroke of two or more points emits that stroke. */
  lemma EmitOneStroke(c: seq<Point>, stroke: seq<Point>)
    requires |c| > 1 && Reorder(c) == [stroke] && |stroke| > 1
    ensures AllEmitted([c]) == [stroke]
  {
    assert [stroke][..0] == [];
    assert Kept([stroke]) == [stroke];
    assert [c][..0] == [];
  }

  /** A single diagonal line of two or more pixels becomes exactly one stroke, in order along the line. */
  lemma DiagonalScenario(img: Image, size: nat, n: nat, cs: seq<seq<Point>>)
    requires 1 < n && DiagonalMask(img, size, n) && Components(img, size, size, cs)
    ensures AllEmitted(cs) == [Line(0, n)]
  {
    var k0 := LineInOneComponent(img, n, cs);
    OnlyOneComponent(img, n, cs, k0);
    assert cs == [cs[0]];
    LineComponent(img, n, cs[0]);
    ReorderLine(n, cs[0]);
    EmitOneStroke(cs[0], Line(0, n));
  }

  /** A 10-by-10 mask with the line from (0, 0) to (4, 4) drawn in. */
  function DiagonalImage(): (img: Image)
    ensures DiagonalMask(img, 10, 5)
  {
    seq(10, r => seq(10, c => if r == c && r < 5 then 255 else 0))
  }

  lemma FiveDiagonalPoints()
    ensures Line(0, 5) == [Point(0, 0), Point(1, 1), Point(2, 2), Point(3, 3), Point(4, 4)]
  {
  }

  /** On that mask the vectoriser yields exactly the one 5-point stroke (0, 0), (1, 1), ..., (4, 4). */
  lemma DiagonalImageScenario(cs: seq<seq<Point>>)
    requires Components(DiagonalImage(), 10, 10, cs)
    ensures AllEmitted(cs) == [[Point(0, 0), Point(1, 1), Point(2, 2), Point(3, 3), Point(4, 4)]]
  {
    DiagonalScenario(DiagonalImage(), 10, 5, cs);
    FiveDiagonalPoints();
  }
}
