/** The zoom range across every handler that writes the viewport atom: the
    toolbar's step buttons and reset, the status bar's level buttons, the wheel
    and the pan gesture. Starting from the initial viewport, the zoom never
    leaves [0.2, 2]. */
module ViewportInvariant {
  import opened CanvasTypes
  import AppLayout
  import StatusBar
  import UseCanvas

  datatype ViewAction =
    | StepZoomIn
    | StepZoomOut
    | ResetView
    | LevelZoomIn
    | LevelZoomOut
    | Wheel(pointer: Point, deltaY: real)
    | PanMove(from: Point, to: Point)

  predicate InRange(v: Viewport)
  {
    AppLayout.MIN_ZOOM <= v.zoom <= AppLayout.MAX_ZOOM
  }

  /** One handler applied to a viewport in range keeps it in range. */
  function Apply(v: Viewport, a: ViewAction): (r: Viewport)
    requires InRange(v)
    ensures InRange(r)
    ensures (a.StepZoomIn? || a.StepZoomOut? || a.LevelZoomIn? || a.LevelZoomOut?) ==> r.pan == v.pan
    ensures a.ResetView? ==> r == InitialViewport
    ensures a.PanMove? ==> r.zoom == v.zoom
  {
    AppLayout.StepZoomKeepsRange(v);
    StatusBar.LevelZoomKeepsRange(v);
    match a
    case StepZoomIn => AppLayout.ZoomIn(v)
    case StepZoomOut => AppLayout.ZoomOut(v)
    case ResetView => AppLayout.ResetView(v)
    case LevelZoomIn => StatusBar.LevelZoomIn(v)
    case LevelZoomOut => StatusBar.LevelZoomOut(v)
    case Wheel(p, dy) => UseCanvas.WheelZoom(v, p, dy)
    case PanMove(from, to) => UseCanvas.PanBy(v, from, to)
  }

  /** A sequence of handlers, applied in order. */
  function Run(v: Viewport, actions: seq<ViewAction>): (r: Viewport)
    requires InRange(v)
    ensures InRange(r)
    decreases |actions|
  {
    if actions == [] then v else Run(Apply(v, actions[0]), actions[1..])
  }

  /** Whatever the user does, the zoom stays in [0.2, 2] from the initial viewport. */
  lemma ZoomStaysInRange(actions: seq<ViewAction>)
    ensures InitialViewport.zoom == 1.0
    ensures 0.2 <= Run(InitialViewport, actions).zoom <= 2.0
  {
  }
}
