/**
 * The physical drawing workspace (config/canvas_config.py): four bounds and the
 * width and height fields, which the dataclass computes once from the
 * class-level default bounds rather than from an instance's own bounds.
 */
module CanvasConfig {

  datatype CanvasConfig = CanvasConfig(minX: real, maxX: real, minY: real, maxY: real,
                                       width: real, height: real)
  {
    /**
     * The (width, height) pair, as the `dimensions` property returns it; on a
     * canvas whose fields are its own spans it reaches from the minimum corner
     * to the maximum one.
     */
    function Dimensions(): (r: (real, real))
      ensures width == maxX - minX && height == maxY - minY ==> (minX + r.0, minY + r.1) == (maxX, maxY)
    {
      (width, height)
    }

    /** The midpoint of the bounds. */
    function Center(): (r: (real, real))
      ensures minX <= maxX && minY <= maxY ==> IsWithinBounds(r.0, r.1)
      ensures r.0 - minX == maxX - r.0 && r.1 - minY == maxY - r.1
    {
      ((minX + maxX) / 2.0, (minY + maxY) / 2.0)
    }

    /**
     * Inclusive on all four edges: equivalently, the point is no further from
     * the midpoint of the bounds than half the span, on each axis.
     */
    predicate IsWithinBounds(x: real, y: real): (r: bool)
      ensures r <==> && -(maxX - minX) / 2.0 <= x - (minX + maxX) / 2.0 <= (maxX - minX) / 2.0
                     && -(maxY - minY) / 2.0 <= y - (minY + maxY) / 2.0 <= (maxY - minY) / 2.0
    {
      minX <= x <= maxX && minY <= y <= maxY
    }
  }

  const DefaultMinX: real := 235.0
  const DefaultMaxX: real := 415.0
  const DefaultMinY: real := -190.0
  const DefaultMaxY: real := 190.0

  /** The canvas a freshly built configuration holds. */
  function Default(): (c: CanvasConfig)
    ensures c.minX < c.maxX && c.minY < c.maxY
    ensures c.width == c.maxX - c.minX && c.height == c.maxY - c.minY
  {
    CanvasConfig(DefaultMinX, DefaultMaxX, DefaultMinY, DefaultMaxY,
                  DefaultMaxX - DefaultMinX, DefaultMaxY - DefaultMinY)
  }

  /** A canvas built with its own bounds but default width and height, as the dataclass does. */
  function WithBounds(minX: real, maxX: real, minY: real, maxY: real): (c: CanvasConfig)
    ensures c.Dimensions() == Default().Dimensions()
    ensures c.minX == minX && c.maxX == maxX && c.minY == minY && c.maxY == maxY
  {
    Default().(minX := minX, maxX := maxX, minY := minY, maxY := maxY)
  }

  lemma DefaultGeometry()
    ensures Default().Dimensions() == (180.0, 380.0)
    ensures Default().Center() == (325.0, 0.0)
  {
  }

  /** Each corner of a well-ordered canvas is inside its bounds, and a point just past any edge is not. */
  lemma BoundsAreInclusive(c: CanvasConfig, eps: real)
    requires c.minX <= c.maxX && c.minY <= c.maxY && eps > 0.0
    ensures c.IsWithinBounds(c.minX, c.minY) && c.IsWithinBounds(c.minX, c.maxY)
    ensures c.IsWithinBounds(c.maxX, c.minY) && c.IsWithinBounds(c.maxX, c.maxY)
    ensures !c.IsWithinBounds(c.minX - eps, c.minY) && !c.IsWithinBounds(c.maxX + eps, c.minY)
    ensures !c.IsWithinBounds(c.minX, c.minY - eps) && !c.IsWithinBounds(c.minX, c.maxY + eps)
  {
  }

  /** Overriding the bounds leaves the dimensions at the defaults' 180 by 380. */
  lemma DimensionsIgnoreBoundOverrides()
    ensures WithBounds(0.0, 100.0, 0.0, 100.0).Dimensions() == (180.0, 380.0)
    ensures WithBounds(0.0, 100.0, 0.0, 100.0).maxX - WithBounds(0.0, 100.0, 0.0, 100.0).minX != 180.0
  {
  }
}
