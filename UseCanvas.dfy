/** The canvas controller (src/hooks/useCanvas.ts): the element list, the
    selection, the viewport, the drag-and-drop ghost and the pan gesture, and the
    symbol drawables on the drawing surface that the Fabric handlers change in
    place. The updater lambdas and the wheel arithmetic are pure functions; the
    handlers, the render pass and the grid loops are methods of `Canvas`. */
module UseCanvas {
  import opened CanvasTypes
  import opened Text
  import opened GridUtils
  import opened Fabric
  import opened SvgUtils
  import opened Lists

  // ---------------------------------------------------------------------------
  // Wheel zoom

  const SCALE_BY: real := 1.08

  /** `Math.max(0.25, Math.min(2, z))`. */
  function ClampWheelZoom(z: real): (r: real)
    ensures 0.25 <= r <= 2.0
    ensures 0.25 <= z <= 2.0 ==> r == z
    ensures z < 0.25 ==> r == 0.25
    ensures z > 2.0 ==> r == 2.0
  {
    Max(0.25, Min(2.0, z))
  }

  /** The pointer relative to the canvas' bounding rectangle (its top-left
      corner), or the origin when the canvas has no rectangle. */
  function PointerPosition(client: Point, rect: Option<Point>): (p: Point)
    ensures rect.None? ==> p == Point(0.0, 0.0)
    ensures rect.Some? ==> p.x + rect.value.x == client.x && p.y + rect.value.y == client.y
  {
    if rect.None? then Point(0.0, 0.0) else Point(client.x - rect.value.x, client.y - rect.value.y)
  }

  /** The wheel handler's new viewport for a pointer given relative to the canvas.
      Scrolling down (deltaY > 0) divides the zoom by 1.08, anything else
      multiplies it; the result is clamped and the pan is chosen so that the
      world point under the pointer stays under it. */
  function WheelZoom(v: Viewport, pointer: Point, deltaY: real): (r: Viewport)
    requires v.zoom != 0.0
    ensures 0.25 <= r.zoom <= 2.0
    ensures deltaY > 0.0 ==> r.zoom == ClampWheelZoom(v.zoom / SCALE_BY)
    ensures deltaY <= 0.0 ==> r.zoom == ClampWheelZoom(v.zoom * SCALE_BY)
  {
    var oldZoom := v.zoom;
    var mousePointTo := Point((pointer.x - v.pan.x) / oldZoom, (pointer.y - v.pan.y) / oldZoom);
    var newZoom := ClampWheelZoom(if deltaY > 0.0 then oldZoom / SCALE_BY else oldZoom * SCALE_BY);
    Viewport(newZoom, Point(pointer.x - mousePointTo.x * newZoom, pointer.y - mousePointTo.y * newZoom))
  }

  /** The world point under the pointer, for a viewport with non-zero zoom. */
  function WorldPoint(v: Viewport, pointer: Point): Point
    requires v.zoom != 0.0
  {
    Point((pointer.x - v.pan.x) / v.zoom, (pointer.y - v.pan.y) / v.zoom)
  }

  /** Wheel zoom keeps the world point under the pointer where it was. */
  lemma WheelZoomKeepsAnchor(v: Viewport, pointer: Point, deltaY: real)
    requires v.zoom != 0.0
    ensures WorldPoint(WheelZoom(v, pointer, deltaY), pointer) == WorldPoint(v, pointer)
  {
    var r := WheelZoom(v, pointer, deltaY);
    var m := WorldPoint(v, pointer);
    assert r.pan == Point(pointer.x - m.x * r.zoom, pointer.y - m.y * r.zoom);
    assert (pointer.x - r.pan.x) / r.zoom == m.x * r.zoom / r.zoom == m.x;
    assert (pointer.y - r.pan.y) / r.zoom == m.y * r.zoom / r.zoom == m.y;
  }

  /** Within the wheel range, scrolling down never zooms in and scrolling up
      never zooms out. */
  lemma WheelZoomDirection(v: Viewport, pointer: Point, deltaY: real)
    requires 0.25 <= v.zoom <= 2.0
    ensures deltaY > 0.0 ==> WheelZoom(v, pointer, deltaY).zoom <= v.zoom
    ensures deltaY <= 0.0 ==> WheelZoom(v, pointer, deltaY).zoom >= v.zoom
  {
  }

  /** The button zoom may go down to 0.2, below the wheel's floor of 0.25, so
      scrolling down at 0.2 raises the zoom to 0.25. */
  lemma WheelOutBelowFloorRaisesZoom(pan: Point, pointer: Point)
    ensures WheelZoom(Viewport(0.2, pan), pointer, 1.0).zoom == 0.25
  {
  }

  // ---------------------------------------------------------------------------
  // Pan gesture

  /** Only the middle button, or the left button with ctrl held, starts a pan. */
  predicate StartsPan(button: int, ctrlKey: bool)
  {
    button == 1 || (button == 0 && ctrlKey)
  }

  /** The updater of one pan step: the pan moves by the pointer delta. */
  function PanBy(v: Viewport, from: Point, to: Point): (r: Viewport)
    ensures r.zoom == v.zoom
    ensures r.pan.x - v.pan.x == to.x - from.x && r.pan.y - v.pan.y == to.y - from.y
  {
    v.(pan := Point(v.pan.x + (to.x - from.x), v.pan.y + (to.y - from.y)))
  }

  /** The pointer position recorded after a sequence of moves that began at `first`. */
  function LastPointer(first: Point, moves: seq<Point>): Point
  {
    if moves == [] then first else moves[|moves| - 1]
  }

  /** The viewport after the moves of one gesture that began at `first`. */
  function PanGesture(v: Viewport, first: Point, moves: seq<Point>): Viewport
    decreases |moves|
  {
    if moves == [] then v
    else
      var init := moves[..|moves| - 1];
      PanBy(PanGesture(v, first, init), LastPointer(first, init), moves[|moves| - 1])
  }

  /** The deltas telescope: over a whole gesture the pan moves by the last pointer
      position minus the first, and the zoom is untouched. */
  lemma {:induction false} PanGestureTelescopes(v: Viewport, first: Point, moves: seq<Point>)
    ensures PanGesture(v, first, moves).zoom == v.zoom
    ensures PanGesture(v, first, moves).pan.x == v.pan.x + (LastPointer(first, moves).x - first.x)
    ensures PanGesture(v, first, moves).pan.y == v.pan.y + (LastPointer(first, moves).y - first.y)
    decreases |moves|
  {
    if moves != [] {
      PanGestureTelescopes(v, first, moves[..|moves| - 1]);
    }
  }

  // ---------------------------------------------------------------------------
  // Live move and resize snapping, commit

  /** `object:moving`: a drawable with a `dataId` is snapped to the 10-unit grid. */
  function MovingSnap(d: Drawable): (r: Drawable)
    ensures !HasDataId(d) ==> r == d
    ensures HasDataId(d) ==> r == d.(left := r.left, top := r.top)
    ensures HasDataId(d) ==> IsMultiple(r.left, 10.0) && IsMultiple(r.top, 10.0)
  {
    if HasDataId(d) then d.(left := SnapToGrid(d.left, 0.0).x, top := SnapToGrid(0.0, d.top).y) else d
  }

  /** A snapped drawable is within half a cell of where it was dragged, and
      snapping it again leaves it where it is. */
  lemma MovingSnapNearAndStable(d: Drawable)
    requires HasDataId(d)
    ensures Abs(MovingSnap(d).left - d.left) <= 5.0 && Abs(MovingSnap(d).top - d.top) <= 5.0
    ensures MovingSnap(MovingSnap(d)) == MovingSnap(d)
  {
    SnapWithinHalfCell(d.left, 10.0);
    SnapWithinHalfCell(d.top, 10.0);
    SnapCoordIdempotent(d.left, 10.0);
    SnapCoordIdempotent(d.top, 10.0);
  }

  /** One axis of `object:scaling`: the scaled size rounded to the grid, at least 10. */
  function SnapSize(size: real, scale: real): (s: real)
    ensures s >= 10.0 && IsMultiple(s, 10.0)
  {
    var snapped := SnapCoord(size * scale, 10.0);
    SnapIsMultiple(size * scale, 10.0);
    MultipleOfInt(1, 10.0);
    Max(10.0, snapped)
  }

  /** `object:scaling`: for a drawable with a `dataId` the scale is folded into
      the size, which is snapped to the grid. */
  function ScalingSnap(d: Drawable): (r: Drawable)
    ensures !HasDataId(d) ==> r == d
    ensures HasDataId(d) ==> r == d.(width := r.width, height := r.height, scaleX := 1.0, scaleY := 1.0)
    ensures HasDataId(d) ==> r.width >= 10.0 && r.height >= 10.0
    ensures HasDataId(d) ==> IsMultiple(r.width, 10.0) && IsMultiple(r.height, 10.0)
  {
    if HasDataId(d) then
      d.(scaleX := 1.0, scaleY := 1.0, width := SnapSize(d.width, d.scaleX), height := SnapSize(d.height, d.scaleY))
    else d
  }

  /** A scaled size of at least 10 is snapped to within half a cell of itself. */
  lemma ScalingSnapNear(d: Drawable)
    requires HasDataId(d)
    requires d.width * d.scaleX >= 10.0 && d.height * d.scaleY >= 10.0
    ensures Abs(ScalingSnap(d).width - d.width * d.scaleX) <= 5.0
    ensures Abs(ScalingSnap(d).height - d.height * d.scaleY) <= 5.0
  {
    SnapWithinHalfCell(d.width * d.scaleX, 10.0);
    SnapWithinHalfCell(d.height * d.scaleY, 10.0);
  }

  /** Resizing a drawable that was just snapped, without scaling it further,
      leaves it as it is. */
  lemma ScalingSnapStable(d: Drawable)
    requires HasDataId(d)
    ensures ScalingSnap(ScalingSnap(d)) == ScalingSnap(d)
  {
    var r := ScalingSnap(d);
    MultipleIsOwnSnap(r.width);
    MultipleIsOwnSnap(r.height);
  }

  /** A multiple of 10 that is at least 10 is its own snapped size. */
  lemma MultipleIsOwnSnap(w: real)
    requires w >= 10.0 && IsMultiple(w, 10.0)
    ensures SnapSize(w, 1.0) == w
  {
    var k := (w / 10.0).Floor;
    assert w == k as real * 10.0;
    MultipleOfInt(k, 10.0);
    assert Round(w / 10.0) == k;
    assert SnapCoord(w * 1.0, 10.0) == w;
  }

  /** The element a committed drawable describes: its centre, its size, its angle. */
  function CommitElement(el: CanvasElement, obj: Drawable): (r: CanvasElement)
    ensures r.id == el.id && r.symbolId == el.symbolId && r.properties == el.properties
    ensures r.position == Point(obj.left + obj.width / 2.0, obj.top + obj.height / 2.0)
    ensures r.width == Some(obj.width) && r.height == Some(obj.height)
    ensures r.rotation == (if obj.angle.Some? then obj.angle.value else 0.0)
  {
    el.(position := Point(obj.left + obj.width / 2.0, obj.top + obj.height / 2.0),
        width := Some(obj.width), height := Some(obj.height),
        rotation := if obj.angle.Some? then obj.angle.value else 0.0)
  }

  /** `object:modified`'s updater: every element with the drawable's id is
      replaced by its committed form; the others, and the order, are kept. */
  function Commit(elements: seq<CanvasElement>, id: string, obj: Drawable): (r: seq<CanvasElement>)
    ensures |r| == |elements|
    ensures forall k :: 0 <= k < |r| && elements[k].id != id ==> r[k] == elements[k]
    ensures forall k :: 0 <= k < |r| && elements[k].id == id ==> r[k] == CommitElement(elements[k], obj)
  {
    seq(|elements|, k requires 0 <= k < |elements| =>
      if elements[k].id == id then CommitElement(elements[k], obj) else elements[k])
  }

  /** Committing the same drawable twice is committing it once. */
  lemma CommitIdempotent(elements: seq<CanvasElement>, id: string, obj: Drawable)
    ensures Commit(Commit(elements, id, obj), id, obj) == Commit(elements, id, obj)
  {
  }

  /** An untouched outlet or default fallback, committed, gives back the position
      and rotation of the element it was drawn for. */
  lemma CommitFallbackRecoversPlacement(el: CanvasElement, category: string)
    requires FamilyOf(category) in {OutletSquare, GenericSquare}
    ensures var d := CreateFallbackShape(category, FallbackOptions(el.position.x, el.position.y, el.rotation, el.id));
      CommitElement(el, d).position == el.position && CommitElement(el, d).rotation == el.rotation
  {
    FallbackSquareCentredOnPosition(category, FallbackOptions(el.position.x, el.position.y, el.rotation, el.id));
  }

  // ---------------------------------------------------------------------------
  // Drop placement

  /** The drag payload: empty, not valid JSON, or a symbol record. */
  datatype DropData = NoData | Malformed | Payload(symbol: ElectricalSymbol)

  /** The element a drop creates, with `now` standing for `Date.now()`. */
  function NewElement(symbol: ElectricalSymbol, at: Point, now: nat): (e: CanvasElement)
    ensures e.symbolId == symbol.id && e.position == at && e.rotation == 0.0
    ensures e.properties == map[] && e.width.None? && e.height.None?
    ensures e.id == symbol.id + "-" + NatToString(now)
  {
    CanvasElement(symbol.id + "-" + NatToString(now), symbol.id, at, 0.0, map[], None, None)
  }

  /** `handleDrop`'s updater of the element list. JSON that does not parse throws
      before the list is touched. */
  function DropElements(elements: seq<CanvasElement>, data: DropData, pointer: Point, now: nat): (r: seq<CanvasElement>)
    ensures data.Payload? ==> |r| == |elements| + 1 && r[..|elements|] == elements
    ensures data.Payload? ==> r[|elements|] == NewElement(data.symbol, SnapToGrid(pointer.x, pointer.y), now)
    ensures !data.Payload? ==> r == elements
  {
    if data.Payload? then elements + [NewElement(data.symbol, SnapToGrid(pointer.x, pointer.y), now)]
    else elements
  }

  /** Drops at two moments give two elements with different ids. */
  lemma DropIdsDiffer(symbol: ElectricalSymbol, at: Point, t1: nat, t2: nat)
    requires t1 != t2
    ensures NewElement(symbol, at, t1).id != NewElement(symbol, at, t2).id
  {
    var p := symbol.id + "-";
    if NewElement(symbol, at, t1).id == NewElement(symbol, at, t2).id {
      assert NatToString(t1) == (p + NatToString(t1))[|p|..] == (p + NatToString(t2))[|p|..] == NatToString(t2);
      NatToStringInjective(t1, t2);
    }
  }

  // ---------------------------------------------------------------------------
  // Render pass

  /** The test `s => s.id === id`. */
  function SymbolWithId(id: string): ElectricalSymbol -> bool
  {
    (s: ElectricalSymbol) => s.id == id
  }

  /** `symbolLibrary.find(s => s.id === id)`. */
  function FindSymbol(library: seq<ElectricalSymbol>, id: string): Option<ElectricalSymbol>
  {
    Find(library, SymbolWithId(id))
  }

  /** The drawable of one element whose symbol was found: the parsed object (or a
      group of the parsed objects) placed at the element and tagged `data.id`, or
      the category fallback, tagged `dataId`, when the loader fails or yields
      nothing. `result` is what the SVG loader gives for the symbol's markup. */
  function RenderOne(element: CanvasElement, symbol: ElectricalSymbol, result: LoadResult): (d: Drawable)
    ensures ParseSVGToFabric(result).Parsed? ==>
      var objs := ParseSVGToFabric(result).objects;
      && d.left == element.position.x && d.top == element.position.y
      && d.angle == Some(element.rotation) && d.dataTag == Some(element.id) && d.origin == TopLeft
      && (|objs| == 1 ==> d.kind == objs[0].kind && d.dataId == objs[0].dataId)
      && (|objs| > 1 ==> d.kind == Group(objs) && d.dataId.None?)
    ensures ParseSVGToFabric(result).ParseError? ==>
      d == CreateFallbackShape(symbol.category, FallbackOptions(element.position.x, element.position.y, element.rotation, element.id))
  {
    match ParseSVGToFabric(result)
    case Parsed(objs) =>
      var o := if |objs| == 1 then objs[0] else GroupObject(objs);
      o.(left := element.position.x, top := element.position.y, angle := Some(element.rotation),
         dataTag := Some(element.id), origin := TopLeft)
    case ParseError(_) =>
      CreateFallbackShape(symbol.category, FallbackOptions(element.position.x, element.position.y, element.rotation, element.id))
  }

  /** The drawable an element contributes, if its symbol is in the library. */
  function RenderStep(element: CanvasElement, library: seq<ElectricalSymbol>, load: string -> LoadResult): seq<Drawable>
  {
    match FindSymbol(library, element.symbolId)
    case None => []
    case Some(s) => [RenderOne(element, s, load(s.svg))]
  }

  /** The drawables of the render pass, element by element. */
  function RenderPass(elements: seq<CanvasElement>, library: seq<ElectricalSymbol>, load: string -> LoadResult): seq<Drawable>
  {
    if elements == [] then []
    else RenderPass(elements[..|elements| - 1], library, load) + RenderStep(elements[|elements| - 1], library, load)
  }

  /** The test the render loop makes before drawing an element (`if (!symbol) continue`). */
  function HasSymbolIn(library: seq<ElectricalSymbol>): CanvasElement -> bool
  {
    (e: CanvasElement) => FindSymbol(library, e.symbolId).Some?
  }

  /** The elements whose symbol is in the library: all of them, in element order. */
  function Renderable(elements: seq<CanvasElement>, library: seq<ElectricalSymbol>): (r: seq<CanvasElement>)
    ensures Sublist(r, elements)
    ensures forall k :: 0 <= k < |r| ==> r[k] in elements && FindSymbol(library, r[k].symbolId).Some?
    ensures forall i :: 0 <= i < |elements| && FindSymbol(library, elements[i].symbolId).Some? ==> elements[i] in r
  {
    FilterIsSublist(elements, HasSymbolIn(library));
    Filter(elements, HasSymbolIn(library))
  }

  /** The render pass yields exactly one drawable per element whose symbol is in
      the library, in element order, and skips the others. */
  lemma {:induction false} RenderPassIsMapOverRenderable(elements: seq<CanvasElement>, library: seq<ElectricalSymbol>, load: string -> LoadResult)
    ensures var objs := RenderPass(elements, library, load);
      var rs := Renderable(elements, library);
      |objs| == |rs| &&
      forall k :: 0 <= k < |rs| ==>
        objs[k] == RenderOne(rs[k], FindSymbol(library, rs[k].symbolId).value, load(FindSymbol(library, rs[k].symbolId).value.svg))
    decreases |elements|
  {
    if elements != [] {
      var init := elements[..|elements| - 1];
      assert elements == init + [elements[|elements| - 1]];
      FilterSnoc(init, elements[|elements| - 1], HasSymbolIn(library));
      RenderPassIsMapOverRenderable(init, library, load);
    }
  }

  /** Every drawable of the render pass carries the id of the element it was drawn
      for: as `data.id` when parsed, as `dataId` when it is a fallback. */
  lemma RenderedObjectsCarryElementIds(elements: seq<CanvasElement>, library: seq<ElectricalSymbol>, load: string -> LoadResult)
    ensures var objs := RenderPass(elements, library, load);
      var rs := Renderable(elements, library);
      |objs| == |rs| && forall k :: 0 <= k < |rs| ==> objs[k].dataTag == Some(rs[k].id) || objs[k].dataId == Some(rs[k].id)
  {
    RenderPassIsMapOverRenderable(elements, library, load);
  }

  // ---------------------------------------------------------------------------
  // Grid lines of the drawing surface

  /** A grid line added to the surface: its end points and its style. */
  datatype SurfaceLine = SurfaceLine(x1: real, y1: real, x2: real, y2: real, stroke: string, strokeWidth: real,
                                     selectable: bool, evented: bool, excludeFromExport: bool)

  function GridStroke(major: bool): string
  {
    if major then "#bdbdbd" else "#e0e0e0"
  }

  function GridStrokeWidth(major: bool): real
  {
    if major then 1.2 else 0.7
  }

  /** The k-th vertical line: at x = 10k, half a unit to the right. */
  function VerticalSurfaceLine(k: nat, height: nat): SurfaceLine
  {
    var x := GRID_SIZE * k;
    var major := x % MAJOR_GRID_SIZE == 0;
    SurfaceLine(x as real + 0.5, 0.0, x as real + 0.5, height as real, GridStroke(major), GridStrokeWidth(major), false, false, true)
  }

  /** The k-th horizontal line: at y = 10k, half a unit down. */
  function HorizontalSurfaceLine(k: nat, width: nat): SurfaceLine
  {
    var y := GRID_SIZE * k;
    var major := y % MAJOR_GRID_SIZE == 0;
    SurfaceLine(0.0, y as real + 0.5, width as real, y as real + 0.5, GridStroke(major), GridStrokeWidth(major), false, false, true)
  }

  /** The two grid loops of the surface set-up: a vertical line every 10 units
      from 0 to the width, then a horizontal line every 10 units from 0 to the
      height, both ends included. */
  method SurfaceGridLines(width: nat, height: nat) returns (lines: seq<SurfaceLine>)
    ensures |lines| == width / 10 + 1 + height / 10 + 1
    ensures forall k :: 0 <= k <= width / 10 ==> lines[k] == VerticalSurfaceLine(k, height)
    ensures forall k :: 0 <= k <= height / 10 ==> lines[width / 10 + 1 + k] == HorizontalSurfaceLine(k, width)
  {
    lines := [];
    var x := 0;
    while x <= width
      invariant x % GRID_SIZE == 0 && x <= (width / 10 + 1) * 10
      invariant |lines| == x / 10
      invariant forall k :: 0 <= k < |lines| ==> lines[k] == VerticalSurfaceLine(k, height)
      decreases width - x
    {
      lines := lines + [VerticalSurfaceLine(x / 10, height)];
      x := x + GRID_SIZE;
    }
    var vertical := |lines|;
    assert vertical == width / 10 + 1;
    var y := 0;
    while y <= height
      invariant y % GRID_SIZE == 0 && y <= (height / 10 + 1) * 10
      invariant |lines| == vertical + y / 10
      invariant forall k :: 0 <= k < vertical ==> lines[k] == VerticalSurfaceLine(k, height)
      invariant forall k :: 0 <= k < y / 10 ==> lines[vertical + k] == HorizontalSurfaceLine(k, width)
      decreases height - y
    {
      lines := lines + [HorizontalSurfaceLine(y / 10, width)];
      y := y + GRID_SIZE;
    }
  }

  /** Every fifth line is major; no grid line can be selected or hit. */
  lemma SurfaceLineStyle(k: nat, height: nat)
    ensures var l := VerticalSurfaceLine(k, height);
      && (k % 5 == 0 <==> l.stroke == "#bdbdbd")
      && (k % 5 == 0 ==> l.strokeWidth == 1.2)
      && (k % 5 != 0 ==> l.strokeWidth == 0.7)
      && !l.selectable && !l.evented && l.excludeFromExport
  {
    assert (10 * k) % 50 == 0 <==> k % 5 == 0;
  }

  // ---------------------------------------------------------------------------
  // The controller

  /** An event target: nothing (null or the background) or one of the symbol
      drawables on the surface. Grid, border and title-block objects are not
      evented and are never targets. */
  datatype Target = Empty | Hit(index: nat)

  /** A snapshot of everything the controller holds. */
  datatype EditorState = EditorState(
    elements: seq<CanvasElement>,
    selected: seq<string>,
    viewport: Viewport,
    draggedSymbol: Option<ElectricalSymbol>,
    ghostPos: Option<Point>,
    isPanning: bool,
    lastPointer: Option<Point>,
    objects: seq<Drawable>)

  class Canvas {
    var elements: seq<CanvasElement>
    var selected: seq<string>
    var viewport: Viewport
    var draggedSymbol: Option<ElectricalSymbol>
    var ghostPos: Option<Point>
    var isPanning: bool
    var lastPointer: Option<Point>
    /** The symbol drawables on the surface, as the last render pass built them. */
    var objects: seq<Drawable>

    function State(): EditorState
      reads this
    {
      EditorState(elements, selected, viewport, draggedSymbol, ghostPos, isPanning, lastPointer, objects)
    }

    /** At most one id is selected, and the zoom stays in the range the zoom
        controls allow. */
    predicate Valid()
      reads this
    {
      |selected| <= 1 && 0.2 <= viewport.zoom <= 2.0
    }

    predicate TargetOk(t: Target)
      reads this
    {
      t.Hit? ==> t.index < |objects|
    }

    /** The initial atoms: no elements, no selection, the initial viewport, no
        drag in progress, no pan gesture, an empty surface. */
    constructor ()
      ensures Valid()
      ensures State() == EditorState([], [], InitialViewport, None, None, false, None, [])
    {
      elements := [];
      selected := [];
      viewport := InitialViewport;
      draggedSymbol := None;
      ghostPos := None;
      isPanning := false;
      lastPointer := None;
      objects := [];
    }

    /** `mouse:down`: a click on nothing clears the selection. */
    method HandleBackgroundClick(target: Target)
      requires Valid()
      modifies this
      ensures Valid()
      ensures target.Empty? ==> State() == old(State()).(selected := [])
      ensures target.Hit? ==> State() == old(State())
    {
      if target.Empty? {
        selected := [];
      }
    }

    /** `selection:created` / `selection:updated`: a drawable with a `dataId`
        becomes the only selected id; anything else leaves the selection. */
    method HandleObjectSelected(target: Target)
      requires Valid() && TargetOk(target)
      modifies this
      ensures Valid()
      ensures target.Hit? && HasDataId(old(objects)[target.index]) ==>
        State() == old(State()).(selected := [old(objects)[target.index].dataId.value])
      ensures !(target.Hit? && HasDataId(old(objects)[target.index])) ==> State() == old(State())
    {
      if target.Hit? && HasDataId(objects[target.index]) {
        selected := [objects[target.index].dataId.value];
      }
    }

    /** `selection:cleared`. */
    method HandleSelectionCleared()
      requires Valid()
      modifies this
      ensures Valid()
      ensures State() == old(State()).(selected := [])
    {
      selected := [];
    }

    /** `object:moving`: the dragged drawable snaps to the grid in place. */
    method HandleObjectMoving(target: Target)
      requires Valid() && TargetOk(target)
      modifies this
      ensures Valid()
      ensures target.Hit? ==>
        State() == old(State()).(objects := old(objects)[target.index := MovingSnap(old(objects)[target.index])])
      ensures target.Empty? ==> State() == old(State())
    {
      if target.Hit? && HasDataId(objects[target.index]) {
        objects := objects[target.index := MovingSnap(objects[target.index])];
      }
    }

    /** `object:scaling`: the drawable's scale is folded into a snapped size in place. */
    method HandleObjectScaling(target: Target)
      requires Valid() && TargetOk(target)
      modifies this
      ensures Valid()
      ensures target.Hit? ==>
        State() == old(State()).(objects := old(objects)[target.index := ScalingSnap(old(objects)[target.index])])
      ensures target.Empty? ==> State() == old(State())
    {
      if target.Hit? && HasDataId(objects[target.index]) {
        objects := objects[target.index := ScalingSnap(objects[target.index])];
      }
    }

    /** `object:modified`: the moved or resized drawable is written back into
        the element list. Drawables tagged only with `data.id` are ignored. */
    method HandleObjectModified(target: Target)
      requires Valid() && TargetOk(target)
      modifies this
      ensures Valid()
      ensures target.Hit? && HasDataId(old(objects)[target.index]) ==>
        var obj := old(objects)[target.index];
        State() == old(State()).(elements := Commit(old(elements), obj.dataId.value, obj))
      ensures !(target.Hit? && HasDataId(old(objects)[target.index])) ==> State() == old(State())
    {
      if target.Hit? && HasDataId(objects[target.index]) {
        var obj := objects[target.index];
        elements := Commit(elements, obj.dataId.value, obj);
      }
    }

    /** `handleMouseDown`: the middle button or ctrl+left starts a pan gesture. */
    method HandleMouseDown(button: int, ctrlKey: bool, client: Point)
      requires Valid()
      modifies this
      ensures Valid()
      ensures StartsPan(button, ctrlKey) ==> State() == old(State()).(isPanning := true, lastPointer := Some(client))
      ensures !StartsPan(button, ctrlKey) ==> State() == old(State())
    {
      if StartsPan(button, ctrlKey) {
        isPanning := true;
        lastPointer := Some(client);
      }
    }

    /** `handleMouseMove`: during a gesture the pan follows the pointer. */
    method HandleMouseMove(client: Point)
      requires Valid()
      modifies this
      ensures Valid()
      ensures old(isPanning) && old(lastPointer).Some? ==>
        State() == old(State()).(viewport := PanBy(old(viewport), old(lastPointer).value, client), lastPointer := Some(client))
      ensures !(old(isPanning) && old(lastPointer).Some?) ==> State() == old(State())
    {
      if isPanning && lastPointer.Some? {
        viewport := PanBy(viewport, lastPointer.value, client);
        lastPointer := Some(client);
      }
    }

    /** `handleMouseUp`: the gesture ends. */
    method HandleMouseUp()
      requires Valid()
      modifies this
      ensures Valid()
      ensures State() == old(State()).(isPanning := false, lastPointer := None)
    {
      isPanning := false;
      lastPointer := None;
    }

    /** The dragged-symbol atom's setter, which the library items call when a
        drag starts. */
    method SetDraggedSymbol(symbol: Option<ElectricalSymbol>)
      requires Valid()
      modifies this
      ensures Valid()
      ensures State() == old(State()).(draggedSymbol := symbol)
    {
      draggedSymbol := symbol;
    }

    /** `handleDragOver`: while a symbol is dragged, the ghost follows the snapped pointer. */
    method HandleDragOver(client: Point, rect: Option<Point>)
      requires Valid()
      modifies this
      ensures Valid()
      ensures old(draggedSymbol).Some? ==>
        var p := PointerPosition(client, rect);
        State() == old(State()).(ghostPos := Some(SnapToGrid(p.x, p.y)))
      ensures old(draggedSymbol).None? ==> State() == old(State())
    {
      if draggedSymbol.Some? {
        var p := PointerPosition(client, rect);
        ghostPos := Some(SnapToGrid(p.x, p.y));
      }
    }

    /** `handleDrop`: the ghost and the dragged symbol are cleared, and a symbol
        payload becomes a new element at the snapped pointer. */
    method HandleDrop(data: DropData, client: Point, rect: Option<Point>, now: nat)
      requires Valid()
      modifies this
      ensures Valid()
      ensures State() == old(State()).(ghostPos := None, draggedSymbol := None,
        elements := DropElements(old(elements), data, PointerPosition(client, rect), now))
    {
      ghostPos := None;
      draggedSymbol := None;
      elements := DropElements(elements, data, PointerPosition(client, rect), now);
    }

    /** `handleDragLeave`. */
    method HandleDragLeave()
      requires Valid()
      modifies this
      ensures Valid()
      ensures State() == old(State()).(ghostPos := None)
    {
      ghostPos := None;
    }

    /** The wheel handler; without a canvas rectangle it does nothing. */
    method HandleWheel(client: Point, rect: Option<Point>, deltaY: real)
      requires Valid()
      modifies this
      ensures Valid()
      ensures rect.Some? ==> State() == old(State()).(viewport := WheelZoom(old(viewport), PointerPosition(client, rect), deltaY))
      ensures rect.None? ==> State() == old(State())
    {
      if rect.Some? {
        viewport := WheelZoom(viewport, PointerPosition(client, rect), deltaY);
      }
    }

    /** `renderSymbols`: the surface's symbol drawables are removed and rebuilt,
        one element at a time. `load` stands for the SVG loader. */
    method RenderSymbols(library: seq<ElectricalSymbol>, load: string -> LoadResult)
      requires Valid()
      modifies this
      ensures Valid()
      ensures State() == old(State()).(objects := RenderPass(old(elements), library, load))
    {
      var rendered: seq<Drawable> := [];
      var i := 0;
      while i < |elements|
        invariant 0 <= i <= |elements|
        invariant rendered == RenderPass(elements[..i], library, load)
      {
        assert elements[..i + 1][..i] == elements[..i];
        var element := elements[i];
        var symbol := FindSymbol(library, element.symbolId);
        if symbol.Some? {
          rendered := rendered + [RenderOne(element, symbol.value, load(symbol.value.svg))];
        }
        i := i + 1;
      }
      assert elements[..|elements|] == elements;
      objects := rendered;
    }
  }
}
