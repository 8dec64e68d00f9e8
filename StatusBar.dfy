/** The status bar's discrete zoom (src/components/Layout/StatusBar.tsx): the
    current zoom is looked up in a fixed list of levels by exact equality, and the
    buttons move one level up or down. */
module StatusBar {
  import opened CanvasTypes

  const ZOOM_LEVELS: seq<real> := [0.25, 0.5, 0.75, 1.0, 1.5, 2.0]

  /** `levels.findIndex(z => z === zoom)`: the first position of zoom, or -1. */
  function FindIndex(levels: seq<real>, zoom: real): (i: int)
    ensures -1 <= i < |levels|
    ensures i == -1 <==> zoom !in levels
    ensures i >= 0 ==> levels[i] == zoom && forall j :: 0 <= j < i ==> levels[j] != zoom
  {
    if levels == [] then -1
    else if levels[0] == zoom then 0
    else
      var k := FindIndex(levels[1..], zoom);
      if k == -1 then -1 else k + 1
  }

  function CurrentZoomIdx(v: Viewport): int
  {
    FindIndex(ZOOM_LEVELS, v.zoom)
  }

  /** The levels are strictly increasing, so each is found at its own position. */
  lemma LevelIndex(i: nat)
    requires i < |ZOOM_LEVELS|
    ensures FindIndex(ZOOM_LEVELS, ZOOM_LEVELS[i]) == i
  {
    var k := FindIndex(ZOOM_LEVELS, ZOOM_LEVELS[i]);
    assert forall a, b :: 0 <= a < b < |ZOOM_LEVELS| ==> ZOOM_LEVELS[a] < ZOOM_LEVELS[b];
  }

  /** `handleZoomIn`: one level up; from a zoom off the list, to the lowest level;
      at the top level, nothing. */
  function LevelZoomIn(v: Viewport): (r: Viewport)
    ensures r.pan == v.pan
    ensures CurrentZoomIdx(v) < |ZOOM_LEVELS| - 1 ==> r.zoom == ZOOM_LEVELS[CurrentZoomIdx(v) + 1]
    ensures CurrentZoomIdx(v) == |ZOOM_LEVELS| - 1 ==> r == v
  {
    var i := CurrentZoomIdx(v);
    if i < |ZOOM_LEVELS| - 1 then v.(zoom := ZOOM_LEVELS[i + 1]) else v
  }

  /** `handleZoomOut`: one level down; at the lowest level or off the list, nothing. */
  function LevelZoomOut(v: Viewport): (r: Viewport)
    ensures r.pan == v.pan
    ensures CurrentZoomIdx(v) > 0 ==> r.zoom == ZOOM_LEVELS[CurrentZoomIdx(v) - 1]
    ensures CurrentZoomIdx(v) <= 0 ==> r == v
  {
    var i := CurrentZoomIdx(v);
    if i > 0 then v.(zoom := ZOOM_LEVELS[i - 1]) else v
  }

  /** The zoom-out button's `disabled` flag. */
  predicate ZoomOutDisabled(v: Viewport)
  {
    CurrentZoomIdx(v) == 0
  }

  /** The zoom-in button's `disabled` flag. */
  predicate ZoomInDisabled(v: Viewport)
  {
    CurrentZoomIdx(v) == |ZOOM_LEVELS| - 1
  }

  /** A zoom off the list zooms in to 0.25, and zooming out there does nothing. */
  lemma OffListZoom(v: Viewport)
    requires v.zoom !in ZOOM_LEVELS
    ensures LevelZoomIn(v) == v.(zoom := 0.25)
    ensures LevelZoomOut(v) == v
  {
  }

  /** Zooming out after zooming in gives back every level but the top one. */
  lemma ZoomOutUndoesZoomIn(i: nat, pan: Point)
    requires i < |ZOOM_LEVELS| - 1
    ensures LevelZoomOut(LevelZoomIn(Viewport(ZOOM_LEVELS[i], pan))) == Viewport(ZOOM_LEVELS[i], pan)
  {
    LevelIndex(i);
    LevelIndex(i + 1);
  }

  /** Zoom-in is disabled exactly when pressing it would change nothing. */
  lemma ZoomInDisabledIffNoOp(v: Viewport)
    ensures ZoomInDisabled(v) <==> LevelZoomIn(v) == v
  {
    var i := CurrentZoomIdx(v);
    if i >= 0 && i < |ZOOM_LEVELS| - 1 {
      assert ZOOM_LEVELS[i] < ZOOM_LEVELS[i + 1];
    }
  }

  /** Zoom-out disabled implies it would change nothing; an off-list zoom leaves
      the button enabled although pressing it also changes nothing. */
  lemma ZoomOutDisabledIsNoOp(v: Viewport)
    ensures ZoomOutDisabled(v) ==> LevelZoomOut(v) == v
    ensures LevelZoomOut(v) == v <==> CurrentZoomIdx(v) <= 0
  {
    var i := CurrentZoomIdx(v);
    if i > 0 {
      assert ZOOM_LEVELS[i - 1] < ZOOM_LEVELS[i];
    }
  }

  /** The level buttons always leave a zoom in [0.2, 2] in that range. */
  lemma LevelZoomKeepsRange(v: Viewport)
    requires 0.2 <= v.zoom <= 2.0
    ensures 0.2 <= LevelZoomIn(v).zoom <= 2.0
    ensures 0.2 <= LevelZoomOut(v).zoom <= 2.0
  {
  }
}
