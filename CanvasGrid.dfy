/** The sheet grid layer (src/components/Canvas/CanvasGrid.tsx): a vertical line
    every GRID_SIZE units across the A3 sheet, then a horizontal line every
    GRID_SIZE units down it, every fifth one drawn as a major line. */
module CanvasGrid {
  import opened Text
  import opened GridUtils

  const CANVAS_WIDTH: int := PAPER_A3.width
  const CANVAS_HEIGHT: int := PAPER_A3.height

  const MinorColor: string := "#e0e0e0"
  const MajorColor: string := "#bdbdbd"

  /** A Konva line of the grid: key, end points, style, and whether it listens
      for events. */
  datatype GridLine = GridLine(key: string, x1: int, y1: int, x2: int, y2: int,
                               stroke: string, strokeWidth: real, listening: bool)

  predicate IsMajor(c: int)
  {
    c % MAJOR_GRID_SIZE == 0
  }

  /** The vertical line at x. */
  function VerticalLine(x: nat): (l: GridLine)
    ensures l.x1 == l.x2 == x && l.y1 == 0 && l.y2 == CANVAS_HEIGHT && !l.listening
    ensures l.key == "v-" + NatToString(x)
    ensures IsMajor(x) ==> l.stroke == MajorColor && l.strokeWidth == 1.2
    ensures !IsMajor(x) ==> l.stroke == MinorColor && l.strokeWidth == 0.7
  {
    GridLine("v-" + NatToString(x), x, 0, x, CANVAS_HEIGHT,
             if IsMajor(x) then MajorColor else MinorColor, if IsMajor(x) then 1.2 else 0.7, false)
  }

  /** The horizontal line at y. */
  function HorizontalLine(y: nat): (l: GridLine)
    ensures l.y1 == l.y2 == y && l.x1 == 0 && l.x2 == CANVAS_WIDTH && !l.listening
    ensures l.key == "h-" + NatToString(y)
    ensures IsMajor(y) ==> l.stroke == MajorColor && l.strokeWidth == 1.2
    ensures !IsMajor(y) ==> l.stroke == MinorColor && l.strokeWidth == 0.7
  {
    GridLine("h-" + NatToString(y), 0, y, CANVAS_WIDTH, y,
             if IsMajor(y) then MajorColor else MinorColor, if IsMajor(y) then 1.2 else 0.7, false)
  }

  const VerticalCount: nat := CANVAS_WIDTH / GRID_SIZE + 1
  const HorizontalCount: nat := CANVAS_HEIGHT / GRID_SIZE + 1

  /** The i-th line of the layer: the vertical lines first, then the horizontal ones. */
  function LineAt(i: nat): GridLine
  {
    if i < VerticalCount then VerticalLine(GRID_SIZE * i) else HorizontalLine(GRID_SIZE * (i - VerticalCount))
  }

  /** The two loops of the component. */
  method Lines() returns (lines: seq<GridLine>)
    ensures |lines| == VerticalCount + HorizontalCount
    ensures forall i :: 0 <= i < |lines| ==> lines[i] == LineAt(i)
  {
    lines := [];
    var x := 0;
    while x <= CANVAS_WIDTH
      invariant 0 <= x <= CANVAS_WIDTH + GRID_SIZE && x % GRID_SIZE == 0
      invariant |lines| == x / GRID_SIZE
      invariant forall i :: 0 <= i < |lines| ==> lines[i] == LineAt(i)
    {
      lines := lines + [VerticalLine(x)];
      x := x + GRID_SIZE;
    }
    var y := 0;
    while y <= CANVAS_HEIGHT
      invariant 0 <= y <= CANVAS_HEIGHT + GRID_SIZE && y % GRID_SIZE == 0
      invariant |lines| == VerticalCount + y / GRID_SIZE
      invariant forall i :: 0 <= i < |lines| ==> lines[i] == LineAt(i)
    {
      lines := lines + [HorizontalLine(y)];
      y := y + GRID_SIZE;
    }
  }

  /** 117 vertical lines at x = 0, 10, ..., 1160 and 61 horizontal lines at
      y = 0, 10, ..., 600. Both first lines and the last horizontal line are
      major; the last vertical line, at 1160 = 23 * 50 + 10, is minor, and the
      one before it is major. */
  lemma LineCounts()
    ensures VerticalCount == 117 && HorizontalCount == 61
    ensures LineAt(0) == VerticalLine(0) && LineAt(116) == VerticalLine(1160)
    ensures LineAt(117) == HorizontalLine(0) && LineAt(177) == HorizontalLine(600)
    ensures IsMajor(0) && IsMajor(1160 - 10) && !IsMajor(1160) && IsMajor(600)
  {
  }

  /** Every fifth line is major: line k of either direction is major iff k is a
      multiple of 5. */
  lemma MajorEveryFifth(k: nat)
    ensures IsMajor(GRID_SIZE * k) <==> k % 5 == 0
  {
  }

  /** The keys of the layer's lines are pairwise distinct. */
  lemma KeysDistinct(i: nat, j: nat)
    requires i < j < VerticalCount + HorizontalCount
    ensures LineAt(i).key != LineAt(j).key
  {
    var a := LineAt(i);
    var b := LineAt(j);
    if a.key == b.key {
      assert a.key[0] == b.key[0];
      var ca := if i < VerticalCount then GRID_SIZE * i else GRID_SIZE * (i - VerticalCount);
      var cb := if j < VerticalCount then GRID_SIZE * j else GRID_SIZE * (j - VerticalCount);
      assert a.key[2..] == NatToString(ca);
      assert b.key[2..] == NatToString(cb);
      NatToStringInjective(ca, cb);
    }
  }
}
