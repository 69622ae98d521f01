/**
 * The coordinate mapper and segment follower (src/services/movement_service.py).
 *
 * A drawing job maps every pixel with one scale factor, clamps each axis
 * into the canvas bounds and truncates toward zero as Python's int() does.
 * Each non-empty segment becomes a raised approach to its first point, a
 * lowered move through every point and one more lowered move at the last
 * point. The polyline simplifier of the vision library is a parameter.
 */
module MovementService {
  import opened Wrappers
  import opened Models
  import opened Raster
  import CanvasConfig
  import RobotService

  /** Python's int() on a float: truncation toward zero. */
  function Trunc(r: real): (n: int)
    ensures r >= 0.0 ==> n as real <= r < n as real + 1.0
    ensures r < 0.0 ==> n as real - 1.0 < r <= n as real
  {
    if r >= 0.0 then r.Floor else -((-r).Floor)
  }

  /** max(lo, min(hi, v)). */
  function Clamp(lo: real, hi: real, v: real): (r: real)
    ensures lo <= hi ==> lo <= r <= hi
    ensures lo <= v <= hi ==> r == v
    ensures v < lo ==> r == lo
    ensures lo <= hi && hi < v ==> r == hi
  {
    if hi < v then (if hi < lo then lo else hi) else if v < lo then lo else v
  }

  predicate Integral(r: real)
  {
    r == r.Floor as real
  }

  /** The canvas has its bounds on whole units and the right way round. */
  predicate WholeBounds(c: CanvasConfig.CanvasConfig)
  {
    Integral(c.minX) && Integral(c.maxX) && Integral(c.minY) && Integral(c.maxY)
    && c.minX <= c.maxX && c.minY <= c.maxY
  }

  /**
   * One axis of the mapping: clamp into [lo, hi], then truncate. Inside the
   * bounds a value moves by less than one unit; outside it lands on the
   * nearer bound; with whole bounds the result stays within them.
   */
  function ToCanvasAxis(lo: real, hi: real, v: real): (n: int)
    ensures Integral(lo) && Integral(hi) && lo <= hi ==> lo <= n as real <= hi
    ensures lo <= v <= hi ==> -1.0 < n as real - v < 1.0
    ensures v < lo ==> n == Trunc(lo)
    ensures lo <= hi < v ==> n == Trunc(hi)
  {
    var u := Clamp(lo, hi, v);
    var t := Trunc(u);
    if Integral(lo) && Integral(hi) && lo <= hi then
      var a, b := lo.Floor, hi.Floor;
      assert a as real == lo && b as real == hi;
      assert u >= 0.0 ==> a < t + 1;
      assert u < 0.0 ==> t - 1 < b;
      t
    else
      t
  }

  /** Scales one pixel onto the canvas with one factor for both axes. */
  function MapPixelToCanvas(c: CanvasConfig.CanvasConfig, p: Point, scale: real): (r: Point)
    ensures WholeBounds(c) ==> c.IsWithinBounds(r.x as real, r.y as real)
  {
    Point(ToCanvasAxis(c.minX, c.maxX, c.minX + p.x as real * scale),
          ToCanvasAxis(c.minY, c.maxY, c.minY + p.y as real * scale))
  }

  /**
   * min(canvas width / drawing width, canvas height / drawing height); None
   * where the source divides by a zero dimension and raises.
   */
  function ScaleFactor(canvasW: real, canvasH: real, drawingW: nat, drawingH: nat): (r: Option<real>)
    ensures r.Some? <==> drawingW != 0 && drawingH != 0
    ensures r.Some? ==> r.value <= canvasW / drawingW as real && r.value <= canvasH / drawingH as real
    ensures r.Some? ==> r.value == canvasW / drawingW as real || r.value == canvasH / drawingH as real
  {
    if drawingW == 0 || drawingH == 0 then None
    else
      var sx := canvasW / drawingW as real;
      var sy := canvasH / drawingH as real;
      Some(if sy < sx then sy else sx)
  }

  /** The simplifier: segments under three points pass through; longer ones go to `approx`. */
  function SimplifySegment(seg: seq<Point>, approx: seq<Point> -> seq<Point>): (r: seq<Point>)
    ensures |seg| < 3 ==> r == seg
    ensures |seg| >= 3 ==> r == approx(seg)
  {
    if |seg| < 3 then seg else approx(seg)
  }

  /** One request to move_canvas_position: integer canvas coordinates, pen up or down. */
  datatype MoveRequest = MoveRequest(x: int, y: int, raised: bool)

  function Request(c: CanvasConfig.CanvasConfig, p: Point, scale: real, raised: bool): (m: MoveRequest)
    ensures m.raised == raised
    ensures WholeBounds(c) ==> c.IsWithinBounds(m.x as real, m.y as real)
  {
    var q := MapPixelToCanvas(c, p, scale);
    MoveRequest(q.x, q.y, raised)
  }

  /** A lowered move through each point in turn. */
  function LoweredTrace(c: CanvasConfig.CanvasConfig, pts: seq<Point>, scale: real): (r: seq<MoveRequest>)
    ensures |r| == |pts|
    ensures forall i :: 0 <= i < |pts| ==> r[i] == Request(c, pts[i], scale, false)
  {
    if pts == [] then [] else LoweredTrace(c, pts[..|pts| - 1], scale) + [Request(c, pts[|pts| - 1], scale, false)]
  }

  /** The moves of one non-empty segment: approach raised, trace lowered, settle on the last point. */
  function SegmentMoves(c: CanvasConfig.CanvasConfig, seg: seq<Point>, scale: real): (r: seq<MoveRequest>)
    requires seg != []
    ensures |r| == |seg| + 2
  {
    [Request(c, seg[0], scale, true)] + LoweredTrace(c, seg, scale) + [Request(c, seg[|seg| - 1], scale, false)]
  }

  /**
   * The shape of a segment's moves: the first is raised at the first point,
   * move i + 1 is lowered at point i, and the last repeats the lowered move
   * at the last point.
   */
  lemma SegmentMovesShape(c: CanvasConfig.CanvasConfig, seg: seq<Point>, scale: real)
    requires seg != []
    ensures var r := SegmentMoves(c, seg, scale);
            && r[0] == Request(c, seg[0], scale, true)
            && (forall i :: 0 <= i < |seg| ==> r[i + 1] == Request(c, seg[i], scale, false))
            && r[|seg| + 1] == r[|seg|]
            && (forall i :: 1 <= i < |r| ==> !r[i].raised)
  {
    var r := SegmentMoves(c, seg, scale);
    var lowered := LoweredTrace(c, seg, scale);
    assert r == [r[0]] + lowered + [r[|seg| + 1]];
    forall i | 0 <= i < |seg| ensures r[i + 1] == Request(c, seg[i], scale, false) {
      assert r[i + 1] == lowered[i];
    }
  }

  /** A sequence of moves laid out like SegmentMoves is SegmentMoves. */
  lemma SegmentMovesByIndex(c: CanvasConfig.CanvasConfig, seg: seq<Point>, scale: real, moves: seq<MoveRequest>)
    requires seg != [] && |moves| == |seg| + 2
    requires moves[0] == Request(c, seg[0], scale, true)
    requires forall i :: 0 <= i < |seg| ==> moves[i + 1] == Request(c, seg[i], scale, false)
    requires moves[|seg| + 1] == Request(c, seg[|seg| - 1], scale, false)
    ensures moves == SegmentMoves(c, seg, scale)
  {
    var mid := moves[1..|seg| + 1];
    var lowered := LoweredTrace(c, seg, scale);
    assert |mid| == |lowered|;
    forall i | 0 <= i < |seg| ensures mid[i] == lowered[i] {
      assert mid[i] == moves[i + 1];
    }
    assert mid == lowered;
    assert moves == [moves[0]] + mid + [moves[|seg| + 1]];
  }

  /** What the vision library's simplifier must do for the follower to index the result: never empty a segment. */
  ghost predicate KeepsNonEmpty(approx: seq<Point> -> seq<Point>)
  {
    forall s :: |s| >= 3 ==> approx(s) != []
  }

  function Prepared(seg: seq<Point>, simplify: bool, approx: seq<Point> -> seq<Point>): seq<Point>
  {
    if simplify then SimplifySegment(seg, approx) else seg
  }

  /** The moves one entry of the job issues: none for an empty segment. */
  function SegmentJob(c: CanvasConfig.CanvasConfig, seg: seq<Point>, scale: real, simplify: bool,
                      approx: seq<Point> -> seq<Point>): (r: seq<MoveRequest>)
    requires KeepsNonEmpty(approx)
    ensures r == [] <==> seg == []
  {
    if seg == [] then [] else SegmentMoves(c, Prepared(seg, simplify, approx), scale)
  }

  /** Every move a job issues, segment after segment; empty segments issue none. */
  function JobMoves(c: CanvasConfig.CanvasConfig, vectors: seq<seq<Point>>, scale: real, simplify: bool,
                    approx: seq<Point> -> seq<Point>): seq<MoveRequest>
    requires KeepsNonEmpty(approx)
  {
    if vectors == [] then []
    else JobMoves(c, vectors[..|vectors| - 1], scale, simplify, approx)
         + SegmentJob(c, vectors[|vectors| - 1], scale, simplify, approx)
  }

  /** The moves of the first k + 1 segments are those of the first k, then segment k's. */
  lemma JobMovesStep(c: CanvasConfig.CanvasConfig, vectors: seq<seq<Point>>, k: nat, scale: real, simplify: bool,
                     approx: seq<Point> -> seq<Point>)
    requires KeepsNonEmpty(approx) && k < |vectors|
    ensures JobMoves(c, vectors[..k + 1], scale, simplify, approx)
            == JobMoves(c, vectors[..k], scale, simplify, approx)
               + SegmentJob(c, vectors[k], scale, simplify, approx)
  {
    assert vectors[..k + 1][..k] == vectors[..k];
  }

  /** The moves of two jobs run back to back are the moves of the joined job. */
  lemma {:induction false} JobMovesAppend(c: CanvasConfig.CanvasConfig, a: seq<seq<Point>>, b: seq<seq<Point>>,
                                          scale: real, simplify: bool, approx: seq<Point> -> seq<Point>)
    requires KeepsNonEmpty(approx)
    ensures JobMoves(c, a + b, scale, simplify, approx)
            == JobMoves(c, a, scale, simplify, approx) + JobMoves(c, b, scale, simplify, approx)
    decreases |b|
  {
    if b == [] {
      assert a + b == a;
    } else {
      var init, seg := b[..|b| - 1], b[|b| - 1];
      assert (a + b)[..|a + b| - 1] == a + init && (a + b)[|a + b| - 1] == seg;
      JobMovesAppend(c, a, init, scale, simplify, approx);
      AppendAssoc(JobMoves(c, a, scale, simplify, approx), JobMoves(c, init, scale, simplify, approx),
                  SegmentJob(c, seg, scale, simplify, approx));
    }
  }

  /** All segments are empty exactly when all but the last are and the last is too. */
  lemma AllEmptyStep(vectors: seq<seq<Point>>, init: seq<seq<Point>>)
    requires vectors != [] && init == vectors[..|vectors| - 1]
    ensures (forall k :: 0 <= k < |vectors| ==> vectors[k] == [])
            <==> (forall k :: 0 <= k < |init| ==> init[k] == []) && vectors[|vectors| - 1] == []
  {
    assert forall k :: 0 <= k < |init| ==> init[k] == vectors[k];
  }

  /** A job issues nothing exactly when all its segments are empty. */
  lemma {:induction false} NoMovesIffAllEmpty(c: CanvasConfig.CanvasConfig, vectors: seq<seq<Point>>, scale: real,
                                              simplify: bool, approx: seq<Point> -> seq<Point>)
    requires KeepsNonEmpty(approx)
    ensures JobMoves(c, vectors, scale, simplify, approx) == [] <==> forall k :: 0 <= k < |vectors| ==> vectors[k] == []
    decreases |vectors|
  {
    if vectors != [] {
      var init, last := vectors[..|vectors| - 1], vectors[|vectors| - 1];
      NoMovesIffAllEmpty(c, init, scale, simplify, approx);
      AllEmptyStep(vectors, init);
      var before, added := JobMoves(c, init, scale, simplify, approx), SegmentJob(c, last, scale, simplify, approx);
      assert JobMoves(c, vectors, scale, simplify, approx) == before + added;
      assert added == [] <==> last == [];
    }
  }

  /** On a canvas with whole bounds every issued move lies within the canvas. */
  lemma {:induction false} JobMovesWithinBounds(c: CanvasConfig.CanvasConfig, vectors: seq<seq<Point>>, scale: real,
                                                simplify: bool, approx: seq<Point> -> seq<Point>)
    requires KeepsNonEmpty(approx) && WholeBounds(c)
    ensures forall m :: m in JobMoves(c, vectors, scale, simplify, approx) ==> c.IsWithinBounds(m.x as real, m.y as real)
    decreases |vectors|
  {
    if vectors != [] {
      JobMovesWithinBounds(c, vectors[..|vectors| - 1], scale, simplify, approx);
      var seg := vectors[|vectors| - 1];
      if seg != [] {
        SegmentMovesWithinBounds(c, Prepared(seg, simplify, approx), scale);
      }
    }
  }

  lemma SegmentMovesWithinBounds(c: CanvasConfig.CanvasConfig, seg: seq<Point>, scale: real)
    requires seg != [] && WholeBounds(c)
    ensures forall m :: m in SegmentMoves(c, seg, scale) ==> c.IsWithinBounds(m.x as real, m.y as real)
  {
    var r := SegmentMoves(c, seg, scale);
    SegmentMovesShape(c, seg, scale);
    forall m | m in r ensures c.IsWithinBounds(m.x as real, m.y as real) {
      var i :| 0 <= i < |r| && r[i] == m;
      if i == 0 {
        assert m == Request(c, seg[0], scale, true);
      } else if i <= |seg| {
        assert m == Request(c, seg[i - 1], scale, false);
      } else {
        assert m == Request(c, seg[|seg| - 1], scale, false);
      }
    }
  }

  /**
   * A 200 by 100 drawing on the default 180 by 380 canvas scales by 0.9 (the
   * width is the tighter axis), and pixel (100, 50) lands 90 and 45 units in
   * from the canvas's minimum corner.
   */
  lemma ScaleScenario()
    ensures ScaleFactor(CanvasConfig.Default().Dimensions().0, CanvasConfig.Default().Dimensions().1, 200, 100)
            == Some(0.9)
    ensures MapPixelToCanvas(CanvasConfig.Default(), Point(100, 50), 0.9) == Point(235 + 90, -190 + 45)
  {
  }

  /** The move_canvas_position call a request makes: NORMAL speed, every other argument at its default. */
  function AsMoveCall(m: MoveRequest): RobotService.MoveCall
  {
    RobotService.MoveCall(m.x as real, m.y as real, None, m.raised, Normal, None, None, None, false)
  }

  /** The follower: issues each segment's moves to the robot service and ignores their return codes. */
  class MovementService {
    const canvas: CanvasConfig.CanvasConfig
    const robot: RobotService.RobotService
    /** Every move requested of the robot service, oldest first. */
    ghost var issued: seq<MoveRequest>
    /** Where each issued move sits in the robot service's request log. */
    ghost var positions: seq<nat>

    /**
     * Every issued move is a call the robot service logged, at increasing
     * positions: the robot saw the moves in the order they were issued.
     */
    ghost predicate Forwarded()
      reads this, robot
    {
      && |positions| == |issued|
      && (forall k :: 0 <= k < |issued| ==>
            positions[k] < |robot.requested| && robot.requested[positions[k]] == AsMoveCall(issued[k]))
      && (forall k :: 0 < k < |positions| ==> positions[k - 1] < positions[k])
    }

    constructor (canvas: CanvasConfig.CanvasConfig, robot: RobotService.RobotService)
      ensures this.canvas == canvas && this.robot == robot && issued == []
      ensures Forwarded()
    {
      this.canvas := canvas;
      this.robot := robot;
      issued := [];
      positions := [];
    }

    /** One move_canvas_position call at NORMAL speed with every other argument at its default. */
    method Move(m: MoveRequest)
      requires robot.Valid() && Forwarded()
      modifies this`issued, this`positions, robot`requested, robot.config`currentState, robot.config`stateTrace,
               robot.arm, robot.errorHandler`errorHistory, robot.errorHandler`retryCount
      ensures robot.Valid() && Forwarded() && old(robot.requested) <= robot.requested
      ensures issued == old(issued) + [m]
      ensures old(robot.requested) + [AsMoveCall(m)] <= robot.requested
    {
      ghost var at := |robot.requested|;
      var _, _, _, _, _ := robot.MoveCanvasPosition(m.x as real, m.y as real, None, m.raised, Normal,
                                                    None, None, None, false);
      issued := issued + [m];
      positions := positions + [at];
    }

    /**
     * Follows every segment of a drawing of shape (drawingH, drawingW). The
     * scale is computed once from the canvas dimensions; a zero dimension
     * fails as the source's division does, before any move.
     */
    method FollowVectors(vectors: seq<seq<Point>>, drawingH: nat, drawingW: nat, simplify: bool,
                         approx: seq<Point> -> seq<Point>) returns (result: Outcome<string>, ghost scale: real)
      requires robot.Valid() && Forwarded() && KeepsNonEmpty(approx)
      modifies this`issued, this`positions, robot`requested, robot.config`currentState, robot.config`stateTrace,
               robot.arm, robot.errorHandler`errorHistory, robot.errorHandler`retryCount
      ensures robot.Valid() && Forwarded() && old(robot.requested) <= robot.requested
      ensures result.Fail? <==> drawingW == 0 || drawingH == 0
      ensures result.Fail? ==> issued == old(issued)
      ensures result.Pass? ==>
                Some(scale) == ScaleFactor(canvas.Dimensions().0, canvas.Dimensions().1, drawingW, drawingH)
                && issued == old(issued) + JobMoves(canvas, vectors, scale, simplify, approx)
    {
      var (canvasW, canvasH) := canvas.Dimensions();
      var s := ScaleFactor(canvasW, canvasH, drawingW, drawingH);
      if s.None? {
        return Fail("division by zero"), 0.0;
      }
      scale := s.value;
      result := Pass;
      var k := 0;
      while k < |vectors|
        invariant 0 <= k <= |vectors|
        invariant robot.Valid() && Forwarded() && old(robot.requested) <= robot.requested
        invariant issued == old(issued) + JobMoves(canvas, vectors[..k], scale, simplify, approx)
      {
        var seg := vectors[k];
        JobMovesStep(canvas, vectors, k, scale, simplify, approx);
        if seg != [] {
          FollowSegment(seg, s.value, simplify, approx);
        }
        AppendAssoc(old(issued), JobMoves(canvas, vectors[..k], scale, simplify, approx),
                    SegmentJob(canvas, vectors[k], scale, simplify, approx));
        k := k + 1;
      }
      assert vectors[..k] == vectors;
    }

    /** One non-empty entry of the job: simplified first when asked, then traced. */
    method FollowSegment(seg: seq<Point>, scale: real, simplify: bool, approx: seq<Point> -> seq<Point>)
      requires robot.Valid() && Forwarded() && seg != [] && KeepsNonEmpty(approx)
      modifies this`issued, this`positions, robot`requested, robot.config`currentState, robot.config`stateTrace,
               robot.arm, robot.errorHandler`errorHistory, robot.errorHandler`retryCount
      ensures robot.Valid() && Forwarded() && old(robot.requested) <= robot.requested
      ensures issued == old(issued) + SegmentJob(canvas, seg, scale, simplify, approx)
    {
      var pts := seg;
      if simplify {
        pts := SimplifySegment(seg, approx);
      }
      TraceSegment(pts, scale);
    }

    /** One segment: approach raised, trace lowered, settle on the last point. */
    method TraceSegment(seg: seq<Point>, scale: real)
      requires robot.Valid() && Forwarded() && seg != []
      modifies this`issued, this`positions, robot`requested, robot.config`currentState, robot.config`stateTrace,
               robot.arm, robot.errorHandler`errorHistory, robot.errorHandler`retryCount
      ensures robot.Valid() && Forwarded() && old(robot.requested) <= robot.requested
      ensures issued == old(issued) + SegmentMoves(canvas, seg, scale)
    {
      ghost var before := issued;
      Move(Request(canvas, seg[0], scale, true));
      var last := Request(canvas, seg[0], scale, false);
      var j := 0;
      while j < |seg|
        invariant 0 <= j <= |seg|
        invariant robot.Valid() && Forwarded() && old(robot.requested) <= robot.requested
        invariant |issued| == |before| + 1 + j && issued[..|before| + 1] == before + [Request(canvas, seg[0], scale, true)]
        invariant forall i :: 0 <= i < j ==> issued[|before| + 1 + i] == Request(canvas, seg[i], scale, false)
        invariant j > 0 ==> last == Request(canvas, seg[j - 1], scale, false)
      {
        last := Request(canvas, seg[j], scale, false);
        Move(last);
        j := j + 1;
      }
      Move(last);
      ghost var moves := issued[|before|..];
      assert issued == before + moves;
      SegmentMovesByIndex(canvas, seg, scale, moves);
    }
  }
}
