/** Grid snapping and sheet constants (src/utils/grid-utils.ts). */
module GridUtils {
  import opened CanvasTypes

  const GRID_SIZE: int := 10
  const MAJOR_GRID_SIZE: int := 50

  /** Sheet size in pixels at 4 px per millimetre. */
  datatype Sheet = Sheet(width: int, height: int)

  const MM_TO_PX: int := 4
  const PAPER_A3: Sheet := Sheet(290 * MM_TO_PX, 150 * MM_TO_PX)
  const MARGIN_MM: int := 10
  const MARGIN_PX: int := MARGIN_MM * MM_TO_PX
  const TITLE_BLOCK_HEIGHT_MM: int := 10
  const TITLE_BLOCK_HEIGHT_PX: int := TITLE_BLOCK_HEIGHT_MM * MM_TO_PX
  const DRAWING_AREA: Sheet := Sheet(290 * MM_TO_PX, 150 * MM_TO_PX)

  /** `Math.round`: the nearest integer, exact halves rounded toward +infinity. */
  function Round(v: real): (k: int)
    ensures v - 0.5 < k as real <= v + 0.5
    ensures ((v + 0.5).Floor as real == v + 0.5) == (k as real == v + 0.5)
  {
    (v + 0.5).Floor
  }

  /** v is an integer multiple of g. */
  predicate IsMultiple(v: real, g: real)
    requires g != 0.0
  {
    (v / g).Floor as real == v / g
  }

  /** One coordinate of `snapToGrid`: `Math.round(v / g) * g`. */
  function SnapCoord(v: real, g: real): real
    requires g != 0.0
  {
    Round(v / g) as real * g
  }

  /** `snapToGrid(x, y, gridSize = GRID_SIZE)`; each axis is snapped on its own. */
  function SnapToGrid(x: real, y: real, gridSize: real := GRID_SIZE as real): (p: Point)
    requires gridSize != 0.0
    ensures IsMultiple(p.x, gridSize) && IsMultiple(p.y, gridSize)
  {
    SnapIsMultiple(x, gridSize);
    SnapIsMultiple(y, gridSize);
    Point(SnapCoord(x, gridSize), SnapCoord(y, gridSize))
  }

  lemma MultipleOfInt(k: int, g: real)
    requires g != 0.0
    ensures (k as real * g) / g == k as real
    ensures IsMultiple(k as real * g, g)
  {
  }

  /** A snapped coordinate is an integer multiple of the grid size. */
  lemma SnapIsMultiple(v: real, g: real)
    requires g != 0.0
    ensures IsMultiple(SnapCoord(v, g), g)
  {
    var k := Round(v / g);
    MultipleOfInt(k, g);
    assert SnapCoord(v, g) == k as real * g;
  }

  /** Snapping is idempotent: a snapped point is left where it is. */
  lemma SnapIdempotent(x: real, y: real, g: real)
    requires g != 0.0
    ensures SnapToGrid(SnapToGrid(x, y, g).x, SnapToGrid(x, y, g).y, g) == SnapToGrid(x, y, g)
  {
    SnapCoordIdempotent(x, g);
    SnapCoordIdempotent(y, g);
  }

  lemma SnapCoordIdempotent(v: real, g: real)
    requires g != 0.0
    ensures SnapCoord(SnapCoord(v, g), g) == SnapCoord(v, g)
  {
    var k := Round(v / g);
    var r := k as real * g;
    MultipleOfInt(k, g);
    assert SnapCoord(v, g) == r;
    assert Round(r / g) == k;
    assert SnapCoord(r, g) == r;
  }

  /** For a positive grid, a snapped coordinate is within half a cell of its input. */
  lemma SnapWithinHalfCell(v: real, g: real)
    requires g > 0.0
    ensures v - g / 2.0 < SnapCoord(v, g)
    ensures SnapCoord(v, g) <= v + g / 2.0
  {
    var q := v / g;
    var k := Round(q) as real;
    assert SnapCoord(v, g) == k * g;
    assert q * g == v;
    var below := k - (q - 0.5);
    var above := q + 0.5 - k;
    assert below * g > 0.0;
    assert below * g == k * g - q * g + 0.5 * g;
    assert k * g > v - 0.5 * g;
    assert above * g >= 0.0;
    assert above * g == q * g + 0.5 * g - k * g;
    assert k * g <= v + 0.5 * g;
  }

  /** An exact tie (v half-way between two grid lines) snaps upward, as `Math.round` does. */
  lemma SnapTieRoundsUp(v: real, g: real)
    requires g > 0.0
    requires IsMultiple(v + g / 2.0, g)
    ensures SnapCoord(v, g) == v + g / 2.0
  {
    var q := v / g;
    assert (g / 2.0) / g == 0.5;
    assert (v + g / 2.0) / g == v / g + (g / 2.0) / g;
    assert (v + g / 2.0) / g == q + 0.5;
    assert Round(q) as real == q + 0.5;
    assert (q + 0.5) * g == v + g / 2.0;
  }

  /** The x output depends only on the x input, the y output only on the y input. */
  lemma SnapAxesIndependent(x: real, y: real, x': real, y': real, g: real)
    requires g != 0.0
    ensures SnapToGrid(x, y, g).x == SnapToGrid(x, y', g).x
    ensures SnapToGrid(x, y, g).y == SnapToGrid(x', y, g).y
  {
  }

  /** The default grid and the sheet constants. */
  lemma SheetConstants()
    ensures GRID_SIZE == 10 && MAJOR_GRID_SIZE == 5 * GRID_SIZE
    ensures PAPER_A3 == Sheet(1160, 600)
    ensures MARGIN_PX == 40 && TITLE_BLOCK_HEIGHT_PX == 40
    ensures DRAWING_AREA == PAPER_A3
    ensures SnapToGrid(13.0, 47.0) == Point(10.0, 50.0)
  {
    assert Round(1.3) == 1;
    assert Round(4.7) == 5;
  }
}
