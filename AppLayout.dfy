/** The toolbar's viewport handlers (src/components/Layout/AppLayout.tsx): step
    zoom clamped to [MIN_ZOOM, MAX_ZOOM], reset, and the undo, redo and delete
    handlers, which are empty. */
module AppLayout {
  import opened CanvasTypes
  import Fabric
  import UseCanvas

  const ZOOM_STEP: real := 0.1
  const MIN_ZOOM: real := 0.2
  const MAX_ZOOM: real := 2.0

  /** `handleZoomIn`'s updater. */
  function ZoomIn(v: Viewport): (r: Viewport)
    ensures r.pan == v.pan
    ensures r.zoom <= MAX_ZOOM
    ensures r.zoom == (if v.zoom + ZOOM_STEP <= MAX_ZOOM then v.zoom + ZOOM_STEP else MAX_ZOOM)
  {
    v.(zoom := Fabric.Min(MAX_ZOOM, v.zoom + ZOOM_STEP))
  }

  /** `handleZoomOut`'s updater. */
  function ZoomOut(v: Viewport): (r: Viewport)
    ensures r.pan == v.pan
    ensures r.zoom >= MIN_ZOOM
    ensures r.zoom == (if v.zoom - ZOOM_STEP >= MIN_ZOOM then v.zoom - ZOOM_STEP else MIN_ZOOM)
  {
    v.(zoom := Fabric.Max(MIN_ZOOM, v.zoom - ZOOM_STEP))
  }

  /** `handleResetView`'s updater. */
  function ResetView(v: Viewport): (r: Viewport)
    ensures r == InitialViewport
  {
    v.(zoom := 1.0, pan := Point(0.0, 0.0))
  }

  /** Reset is idempotent. */
  lemma ResetIdempotent(v: Viewport)
    ensures ResetView(ResetView(v)) == ResetView(v)
  {
  }

  /** The step buttons keep the zoom within [MIN_ZOOM, MAX_ZOOM]. */
  lemma StepZoomKeepsRange(v: Viewport)
    requires MIN_ZOOM <= v.zoom <= MAX_ZOOM
    ensures MIN_ZOOM <= ZoomIn(v).zoom <= MAX_ZOOM
    ensures MIN_ZOOM <= ZoomOut(v).zoom <= MAX_ZOOM
  {
  }

  /** n presses of zoom-in. */
  function ZoomInTimes(v: Viewport, n: nat): Viewport
  {
    if n == 0 then v else ZoomIn(ZoomInTimes(v, n - 1))
  }

  /** n presses of zoom-out. */
  function ZoomOutTimes(v: Viewport, n: nat): Viewport
  {
    if n == 0 then v else ZoomOut(ZoomOutTimes(v, n - 1))
  }

  /** n presses of zoom-in add n steps, capped at MAX_ZOOM. */
  lemma {:induction false} ZoomInTimesIsCappedSum(v: Viewport, n: nat)
    requires v.zoom <= MAX_ZOOM
    ensures ZoomInTimes(v, n).pan == v.pan
    ensures ZoomInTimes(v, n).zoom == Fabric.Min(MAX_ZOOM, v.zoom + ZOOM_STEP * n as real)
  {
    if n > 0 {
      ZoomInTimesIsCappedSum(v, n - 1);
    }
  }

  /** n presses of zoom-out subtract n steps, floored at MIN_ZOOM. */
  lemma {:induction false} ZoomOutTimesIsFlooredDifference(v: Viewport, n: nat)
    requires v.zoom >= MIN_ZOOM
    ensures ZoomOutTimes(v, n).pan == v.pan
    ensures ZoomOutTimes(v, n).zoom == Fabric.Max(MIN_ZOOM, v.zoom - ZOOM_STEP * n as real)
  {
    if n > 0 {
      ZoomOutTimesIsFlooredDifference(v, n - 1);
    }
  }

  /** The number of zoom-in presses that reach MAX_ZOOM from a zoom of at most MAX_ZOOM. */
  function StepsToMax(zoom: real): (n: nat)
    requires zoom <= MAX_ZOOM
    ensures zoom + ZOOM_STEP * n as real >= MAX_ZOOM
  {
    ((MAX_ZOOM - zoom) * 10.0).Floor + 1
  }

  /** Repeated zoom-in reaches exactly MAX_ZOOM and then stays there. */
  lemma ZoomInReachesMaxAndStays(v: Viewport, m: nat)
    requires v.zoom <= MAX_ZOOM
    requires m >= StepsToMax(v.zoom)
    ensures ZoomInTimes(v, m).zoom == MAX_ZOOM
    ensures ZoomIn(ZoomInTimes(v, m)) == ZoomInTimes(v, m)
  {
    ZoomInTimesIsCappedSum(v, m);
    var n := StepsToMax(v.zoom);
    assert ZOOM_STEP * m as real >= ZOOM_STEP * n as real;
  }

  /** The toolbar's undo, redo and delete buttons. */
  datatype EditAction = Undo | Redo | Delete

  /** `handleUndo`, `handleRedo` and `handleDelete` are all `() => {}`: no
      button changes any state. */
  function HandleEditAction(action: EditAction, s: UseCanvas.EditorState): (r: UseCanvas.EditorState)
    ensures r == s
  {
    s
  }
}
