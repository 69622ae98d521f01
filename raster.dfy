/**
 * Pixel geometry shared by the vectoriser, the eraser planner and the
 * coordinate mapper: a 2-D mask indexed [row][column], points written
 * (x, y) = (column, row) as the planners emit them, and the squared
 * distance they compare.
 */
module Raster {

  /** A pixel position, column first. */
  datatype Point = Point(x: int, y: int)

  /** A 2-D mask, indexed [row][column]; nonzero is foreground ("ink"). */
  type Image = seq<seq<int>>

  /** The mask has shape (h, w), as a 2-D array does. */
  predicate Rectangular(img: Image, h: nat, w: nat)
  {
    |img| == h && forall r :: 0 <= r < h ==> |img[r]| == w
  }

  predicate InImage(img: Image, p: Point)
  {
    0 <= p.y < |img| && 0 <= p.x < |img[p.y]|
  }

  /** A foreground pixel of the mask. */
  predicate Ink(img: Image, p: Point)
  {
    InImage(img, p) && img[p.y][p.x] != 0
  }

  /** Every foreground pixel of the mask. */
  function InkPoints(img: Image): (s: set<Point>)
    ensures forall p :: p in s <==> Ink(img, p)
  {
    set y, x | 0 <= y < |img| && 0 <= x < |img[y]| && img[y][x] != 0 :: Point(x, y)
  }

  function DistSq(a: Point, b: Point): (d: int)
    ensures d >= 0
    ensures d == 0 <==> a == b
  {
    (a.x - b.x) * (a.x - b.x) + (a.y - b.y) * (a.y - b.y)
  }

  /** The eight pixels around a pixel. */
  predicate Adjacent(a: Point, b: Point)
  {
    a != b && -1 <= a.x - b.x <= 1 && -1 <= a.y - b.y <= 1
  }

  /** Raster order: earlier row first, then earlier column. */
  predicate RasterLeq(a: Point, b: Point)
  {
    a.y < b.y || (a.y == b.y && a.x <= b.x)
  }

  /** No element occurs twice. */
  predicate NoRepeats<T(==)>(s: seq<T>)
  {
    forall i, j :: 0 <= i < j < |s| ==> s[i] != s[j]
  }

  lemma AppendAssoc<T>(a: seq<T>, b: seq<T>, c: seq<T>)
    ensures (a + b) + c == a + (b + c)
  {
  }

  /** A non-empty sequence is its front followed by its last element. */
  lemma SplitLast<T>(s: seq<T>)
    requires s != []
    ensures s == s[..|s| - 1] + [s[|s| - 1]]
  {
  }

  /** Every element of a prefix is an element of the whole. */
  lemma PrefixMembers<T>(a: seq<T>, b: seq<T>)
    requires |a| <= |b| && b[..|a|] == a
    ensures forall x :: x in a ==> x in b
  {
    forall x | x in a ensures x in b {
      var t :| 0 <= t < |a| && a[t] == x;
      assert b[t] == a[t];
    }
  }

  /** The segments laid end to end. */
  function Flatten<T>(ss: seq<seq<T>>): (r: seq<T>)
    ensures |ss| == 0 ==> r == []
  {
    if ss == [] then [] else Flatten(ss[..|ss| - 1]) + ss[|ss| - 1]
  }

  lemma {:induction false} FlattenAppend<T>(a: seq<seq<T>>, b: seq<seq<T>>)
    ensures Flatten(a + b) == Flatten(a) + Flatten(b)
    decreases |b|
  {
    if b == [] {
      assert a + b == a;
    } else {
      assert (a + b)[..|a + b| - 1] == a + b[..|b| - 1];
      FlattenAppend(a, b[..|b| - 1]);
    }
  }

  /** An element of the flattened sequence lies in one of the segments, and back. */
  lemma {:induction false} InFlatten<T>(ss: seq<seq<T>>, x: T)
    ensures x in Flatten(ss) <==> exists k :: 0 <= k < |ss| && x in ss[k]
    decreases |ss|
  {
    if ss != [] {
      var init := ss[..|ss| - 1];
      InFlatten(init, x);
      if x in Flatten(init) {
        var k :| 0 <= k < |init| && x in init[k];
        assert ss[k] == init[k];
      }
      if exists k :: 0 <= k < |ss| && x in ss[k] {
        var k :| 0 <= k < |ss| && x in ss[k];
        if k < |ss| - 1 {
          assert init[k] == ss[k];
        }
      }
    }
  }

  /** A sequence without repeats has every multiplicity at most one. */
  lemma {:induction false} NoRepeatsMultiset<T>(s: seq<T>)
    ensures NoRepeats(s) <==> forall x :: multiset(s)[x] <= 1
    decreases |s|
  {
    if s != [] {
      var init := s[..|s| - 1];
      var last := s[|s| - 1];
      assert s == init + [last];
      NoRepeatsMultiset(init);
      if NoRepeats(s) {
        assert NoRepeats(init);
        forall i | 0 <= i < |init| ensures init[i] != last {
          assert init[i] == s[i];
        }
        assert last !in init;
      }
      if forall x :: multiset(s)[x] <= 1 {
        assert forall x :: multiset(init)[x] <= multiset(s)[x];
        assert last !in multiset(init);
        forall i, j | 0 <= i < j < |s| ensures s[i] != s[j] {
          if j < |s| - 1 {
            assert s[i] == init[i] && s[j] == init[j];
          } else {
            assert s[i] in init;
          }
        }
      }
    }
  }

  /** Two sequences without repeats and without common elements join without repeats. */
  lemma NoRepeatsAppend<T>(a: seq<T>, b: seq<T>)
    requires NoRepeats(a) && NoRepeats(b) && forall x :: x in a ==> x !in b
    ensures NoRepeats(a + b)
  {
    var s := a + b;
    forall i, j | 0 <= i < j < |s| ensures s[i] != s[j] {
      if j >= |a| && i < |a| {
        assert s[i] in a && s[j] == b[j - |a|];
      } else if i >= |a| {
        assert s[i] == b[i - |a|] && s[j] == b[j - |a|];
      }
    }
  }

  /** A sequence without repeats has as many distinct elements as positions. */
  lemma {:induction false} NoRepeatsCard<T>(s: seq<T>)
    requires NoRepeats(s)
    ensures |set x | x in s| == |s|
    decreases |s|
  {
    if s != [] {
      var init := s[..|s| - 1];
      assert NoRepeats(init);
      NoRepeatsCard(init);
      assert s == init + [s[|s| - 1]];
      assert s[|s| - 1] !in init;
      assert (set x | x in s) == (set x | x in init) + {s[|s| - 1]};
    }
  }

  /** A subset is no larger than its superset. */
  lemma {:induction false} SubsetCard<T>(a: set<T>, b: set<T>)
    requires a <= b
    ensures |a| <= |b|
    decreases |a|
  {
    if a != {} {
      var x :| x in a;
      SubsetCard(a - {x}, b - {x});
    }
  }

  /** Dropping elements keeps a sequence free of repeats. */
  lemma SubMultisetNoRepeats<T>(a: seq<T>, b: seq<T>)
    requires multiset(a) <= multiset(b) && NoRepeats(b)
    ensures NoRepeats(a)
  {
    NoRepeatsMultiset(a);
    NoRepeatsMultiset(b);
  }
}
