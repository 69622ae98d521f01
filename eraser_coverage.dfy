/**
 * What the eraser planner of src/services/path_planning_service.py
 * (_plan_eraser_centers) computes: a sequence of eraser centers over the
 * ink of a binarised mask. The first is a top-left ink pixel (least
 * row + column); each later one is an ink pixel no earlier footprint
 * covers, nearest (by squared distance) to the center before it; the plan
 * ends when every ink pixel lies under some footprint. Ties are broken by
 * Python's set order, so any minimiser is allowed.
 */
module EraserCoverage {
  import opened Raster

  function Max(a: int, b: int): int
  {
    if a < b then b else a
  }

  function Min(a: int, b: int): int
  {
    if a < b then a else b
  }

  /** A pixel the planner must erase: argwhere(bin_img > 0). */
  predicate Marked(img: Image, p: Point)
  {
    InImage(img, p) && img[p.y][p.x] > 0
  }

  /** Every pixel the planner must erase. */
  function MarkedPoints(img: Image): (s: set<Point>)
    ensures forall p :: p in s <==> Marked(img, p)
  {
    set y, x | 0 <= y < |img| && 0 <= x < |img[y]| && img[y][x] > 0 :: Point(x, y)
  }

  /**
   * mark_covered: the footprint of a center is rows [y - rectH/2, y + rectH/2)
   * and columns [x - rectW/2, x + rectW/2), clipped to the h-by-w mask.
   */
  predicate InFootprint(h: nat, w: nat, rectW: nat, rectH: nat, center: Point, p: Point)
  {
    Max(0, center.y - rectH / 2) <= p.y < Min(h, center.y + rectH / 2)
    && Max(0, center.x - rectW / 2) <= p.x < Min(w, center.x + rectW / 2)
  }

  /** The pixel lies under the footprint of one of the first n centers. */
  predicate CoveredBy(h: nat, w: nat, rectW: nat, rectH: nat, centers: seq<Point>, n: int, p: Point)
  {
    exists k :: 0 <= k < n && k < |centers| && InFootprint(h, w, rectW, rectH, centers[k], p)
  }

  /** The key of the top-left pick: row + column. */
  function Corner(p: Point): int
  {
    p.x + p.y
  }

  /**
   * Center k is a pick the planner can make: an ink pixel no earlier
   * footprint covers; the first minimises row + column over all ink, a later
   * one minimises the squared distance from the center before it over the
   * ink still uncovered.
   */
  ghost predicate ChosenAt(img: Image, h: nat, w: nat, rectW: nat, rectH: nat, centers: seq<Point>, k: nat)
    requires k < |centers|
  {
    && Marked(img, centers[k])
    && !CoveredBy(h, w, rectW, rectH, centers, k, centers[k])
    && (k == 0 ==> forall p :: Marked(img, p) ==> Corner(centers[0]) <= Corner(p))
    && (k > 0 ==> forall p :: Marked(img, p) && !CoveredBy(h, w, rectW, rectH, centers, k, p) ==>
                   DistSq(centers[k - 1], centers[k]) <= DistSq(centers[k - 1], p))
  }

  /** A complete plan: empty exactly when there is no ink, every pick valid, and every ink pixel covered. */
  ghost predicate ErasePlan(img: Image, h: nat, w: nat, rectW: nat, rectH: nat, centers: seq<Point>)
  {
    && (centers == [] <==> MarkedPoints(img) == {})
    && (forall k :: 0 <= k < |centers| ==> ChosenAt(img, h, w, rectW, rectH, centers, k))
    && (forall p :: Marked(img, p) ==> CoveredBy(h, w, rectW, rectH, centers, |centers|, p))
  }

  /** With an eraser at least 2 by 2 pixels, a center inside the mask lies under its own footprint. */
  lemma OwnFootprint(h: nat, w: nat, rectW: nat, rectH: nat, p: Point)
    requires rectW >= 2 && rectH >= 2 && 0 <= p.x < w && 0 <= p.y < h
    ensures InFootprint(h, w, rectW, rectH, p, p)
  {
  }

  /** The covered grid holds exactly the pixels under the footprints of the first n centers. */
  ghost predicate CoveredGrid(covered: array2<bool>, h: nat, w: nat, rectW: nat, rectH: nat, centers: seq<Point>)
    reads covered
    requires covered.Length0 == h && covered.Length1 == w
  {
    forall r, c :: 0 <= r < h && 0 <= c < w ==> covered[r, c] == CoveredBy(h, w, rectW, rectH, centers, |centers|, Point(c, r))
  }

  /** With an eraser too thin to cover its center pixel, the footprint is empty. */
  lemma ThinFootprintEmpty(h: nat, w: nat, rectW: nat, rectH: nat, center: Point, p: Point)
    requires rectW < 2 || rectH < 2
    ensures !InFootprint(h, w, rectW, rectH, center, p)
  {
  }

  /** Covering by one more center adds exactly that center's footprint. */
  lemma CoveredSnoc(h: nat, w: nat, rectW: nat, rectH: nat, centers: seq<Point>, x: Point, p: Point)
    ensures CoveredBy(h, w, rectW, rectH, centers + [x], |centers| + 1, p)
            <==> CoveredBy(h, w, rectW, rectH, centers, |centers|, p) || InFootprint(h, w, rectW, rectH, x, p)
  {
    var after := centers + [x];
    if CoveredBy(h, w, rectW, rectH, after, |centers| + 1, p) {
      var k :| 0 <= k < |centers| + 1 && k < |after| && InFootprint(h, w, rectW, rectH, after[k], p);
      if k < |centers| {
        assert after[k] == centers[k];
      }
    }
    if CoveredBy(h, w, rectW, rectH, centers, |centers|, p) {
      var k :| 0 <= k < |centers| && k < |centers| && InFootprint(h, w, rectW, rectH, centers[k], p);
      assert after[k] == centers[k];
    }
    if InFootprint(h, w, rectW, rectH, x, p) {
      assert after[|centers|] == x;
    }
  }

  /** Covering by the first n centers does not look past them. */
  lemma CoveredPrefix(h: nat, w: nat, rectW: nat, rectH: nat, centers: seq<Point>, more: seq<Point>, n: nat, p: Point)
    requires n <= |centers|
    ensures CoveredBy(h, w, rectW, rectH, centers + more, n, p) <==> CoveredBy(h, w, rectW, rectH, centers, n, p)
  {
    var after := centers + more;
    if CoveredBy(h, w, rectW, rectH, after, n, p) {
      var k :| 0 <= k < n && k < |after| && InFootprint(h, w, rectW, rectH, after[k], p);
      assert after[k] == centers[k];
    }
    if CoveredBy(h, w, rectW, rectH, centers, n, p) {
      var k :| 0 <= k < n && k < |centers| && InFootprint(h, w, rectW, rectH, centers[k], p);
      assert after[k] == centers[k];
    }
  }

  /** Appending a center leaves the earlier picks valid. */
  lemma ChosenPrefix(img: Image, h: nat, w: nat, rectW: nat, rectH: nat, centers: seq<Point>, x: Point, k: nat)
    requires k < |centers| && ChosenAt(img, h, w, rectW, rectH, centers, k)
    ensures ChosenAt(img, h, w, rectW, rectH, centers + [x], k)
  {
    var after := centers + [x];
    assert after[k] == centers[k];
    CoveredPrefix(h, w, rectW, rectH, centers, [x], k, centers[k]);
    if k > 0 {
      assert after[k - 1] == centers[k - 1];
      forall p | Marked(img, p) && !CoveredBy(h, w, rectW, rectH, after, k, p)
        ensures DistSq(after[k - 1], after[k]) <= DistSq(after[k - 1], p)
      {
        CoveredPrefix(h, w, rectW, rectH, centers, [x], k, p);
      }
    } else {
      assert after[0] == centers[0];
    }
  }

  /**
   * No center is picked twice: each pick is uncovered by the earlier
   * footprints, and every earlier center lies under its own.
   */
  lemma PlanNoRepeats(img: Image, h: nat, w: nat, rectW: nat, rectH: nat, centers: seq<Point>)
    requires Rectangular(img, h, w) && rectW >= 2 && rectH >= 2
    requires forall k :: 0 <= k < |centers| ==> ChosenAt(img, h, w, rectW, rectH, centers, k)
    ensures NoRepeats(centers)
  {
    forall i, j | 0 <= i < j < |centers| ensures centers[i] != centers[j] {
      assert ChosenAt(img, h, w, rectW, rectH, centers, i);
      OwnFootprint(h, w, rectW, rectH, centers[i]);
      assert CoveredBy(h, w, rectW, rectH, centers, j, centers[i]);
      assert ChosenAt(img, h, w, rectW, rectH, centers, j);
    }
  }

  /** A plan takes at most one center per ink pixel. */
  lemma PlanBound(img: Image, h: nat, w: nat, rectW: nat, rectH: nat, centers: seq<Point>)
    requires Rectangular(img, h, w) && rectW >= 2 && rectH >= 2
    requires ErasePlan(img, h, w, rectW, rectH, centers)
    ensures |centers| <= |MarkedPoints(img)|
  {
    PlanNoRepeats(img, h, w, rectW, rectH, centers);
    NoRepeatsCard(centers);
    var picked := set x | x in centers;
    forall x | x in picked ensures x in MarkedPoints(img) {
      var k :| 0 <= k < |centers| && centers[k] == x;
      assert ChosenAt(img, h, w, rectW, rectH, centers, k);
    }
    SubsetCard(picked, MarkedPoints(img));
  }

  /** A finite non-empty set has an element of least key. */
  lemma {:induction false} LeastExists(s: set<Point>, key: Point -> int)
    requires s != {}
    ensures exists m :: m in s && forall p :: p in s ==> key(m) <= key(p)
    decreases |s|
  {
    var x :| x in s;
    if s - {x} != {} {
      LeastExists(s - {x}, key);
      var m :| m in s - {x} && forall p :: p in s - {x} ==> key(m) <= key(p);
      if key(x) < key(m) {
        assert forall p :: p in s ==> key(x) <= key(p);
      } else {
        assert forall p :: p in s ==> key(m) <= key(p);
      }
    } else {
      forall p | p in s ensures key(x) <= key(p) {
        assert p !in s - {x};
      }
    }
  }

  /** Some remaining pixel is nearest, by squared distance, to `from`. */
  lemma NearestExists(s: set<Point>, from: Point)
    requires s != {}
    ensures exists m :: m in s && forall p :: p in s ==> DistSq(from, m) <= DistSq(from, p)
  {
    LeastExists(s, p => DistSq(from, p));
  }

  /** The unclipped top-left corner of the footprint of `center`. */
  function TopLeft(center: Point, rectW: nat, rectH: nat): Point
  {
    Point(center.x - rectW / 2, center.y - rectH / 2)
  }

  /** The rects the planner reports beside its centers: each footprint's top-left corner. */
  function Corners(centers: seq<Point>, rectW: nat, rectH: nat): (r: seq<Point>)
    ensures |r| == |centers|
    ensures forall k :: 0 <= k < |centers| ==> r[k] == TopLeft(centers[k], rectW, rectH)
  {
    seq(|centers|, k requires 0 <= k < |centers| => TopLeft(centers[k], rectW, rectH))
  }

  /** Reporting one more center reports one more corner. */
  lemma CornersSnoc(centers: seq<Point>, x: Point, rectW: nat, rectH: nat)
    ensures Corners(centers + [x], rectW, rectH) == Corners(centers, rectW, rectH) + [TopLeft(x, rectW, rectH)]
  {
  }

  /**
   * The loop state of the planner after the picks in `centers`: `remaining`
   * is the ink no footprint covers yet, and every pick so far was valid.
   */
  ghost predicate Planning(img: Image, h: nat, w: nat, rectW: nat, rectH: nat, centers: seq<Point>, remaining: set<Point>)
  {
    && Rectangular(img, h, w) && rectW >= 2 && rectH >= 2
    && (forall p :: p in remaining <==> Marked(img, p) && !CoveredBy(h, w, rectW, rectH, centers, |centers|, p))
    && (forall k :: 0 <= k < |centers| ==> ChosenAt(img, h, w, rectW, rectH, centers, k))
  }

  /** `current` is a pick the planner may make next. */
  ghost predicate NextPick(img: Image, centers: seq<Point>, remaining: set<Point>, current: Point)
  {
    && current in remaining
    && (centers == [] ==> forall p :: Marked(img, p) ==> Corner(current) <= Corner(p))
    && (centers != [] ==> forall p :: p in remaining ==> DistSq(centers[|centers| - 1], current) <= DistSq(centers[|centers| - 1], p))
  }

  /** Before the first pick, the remaining ink is all of it. */
  lemma PlanStart(img: Image, h: nat, w: nat, rectW: nat, rectH: nat)
    requires Rectangular(img, h, w) && rectW >= 2 && rectH >= 2
    ensures Planning(img, h, w, rectW, rectH, [], MarkedPoints(img))
  {
  }

  /**
   * Stamping the footprint of a valid pick keeps the state, and the
   * remaining ink strictly shrinks, since the pick lies under its own
   * footprint.
   */
  lemma PlanStep(img: Image, h: nat, w: nat, rectW: nat, rectH: nat, centers: seq<Point>, remaining: set<Point>,
                 current: Point, newly: set<Point>)
    requires Planning(img, h, w, rectW, rectH, centers, remaining) && NextPick(img, centers, remaining, current)
    requires forall p :: p in newly <==> p in remaining && !CoveredBy(h, w, rectW, rectH, centers + [current], |centers| + 1, p)
    ensures Planning(img, h, w, rectW, rectH, centers + [current], newly)
    ensures newly < remaining
  {
    var after := centers + [current];
    assert after[|centers|] == current;
    forall p ensures p in newly <==> Marked(img, p) && !CoveredBy(h, w, rectW, rectH, after, |after|, p) {
      CoveredSnoc(h, w, rectW, rectH, centers, current, p);
    }
    forall k | 0 <= k < |after| ensures ChosenAt(img, h, w, rectW, rectH, after, k) {
      if k < |centers| {
        ChosenPrefix(img, h, w, rectW, rectH, centers, current, k);
      } else {
        CoveredPrefix(h, w, rectW, rectH, centers, [current], |centers|, current);
        if k > 0 {
          assert after[k - 1] == centers[|centers| - 1];
          forall p | Marked(img, p) && !CoveredBy(h, w, rectW, rectH, after, k, p)
            ensures DistSq(after[k - 1], after[k]) <= DistSq(after[k - 1], p)
          {
            CoveredPrefix(h, w, rectW, rectH, centers, [current], |centers|, p);
          }
        }
      }
    }
    OwnFootprint(h, w, rectW, rectH, current);
    CoveredSnoc(h, w, rectW, rectH, centers, current, current);
    assert current !in newly;
  }

  /** Once no ink remains uncovered, the picks form a complete plan. */
  lemma PlanDone(img: Image, h: nat, w: nat, rectW: nat, rectH: nat, centers: seq<Point>)
    requires Planning(img, h, w, rectW, rectH, centers, {}) && centers != []
    ensures ErasePlan(img, h, w, rectW, rectH, centers)
  {
    assert ChosenAt(img, h, w, rectW, rectH, centers, 0);
    assert centers[0] in MarkedPoints(img);
  }

  /** Without ink the empty plan is complete. */
  lemma PlanNone(img: Image, h: nat, w: nat, rectW: nat, rectH: nat)
    requires MarkedPoints(img) == {}
    ensures ErasePlan(img, h, w, rectW, rectH, [])
  {
  }
}
