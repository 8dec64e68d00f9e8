# Canvas editing core of a schematic editor, in Dafny

This project models the editing core of a browser-based editor for electrical schematics. Users drag typed symbols from a library onto an A3 sheet. They move and resize those symbols on a 10-unit grid, pan and zoom the view, edit symbol properties and the title block, and save diagrams to a local keyed store. The model covers the following, with the Fabric, Konva and React runtimes removed:

- **Grid and sheet** (`GridUtils`): the grid quantiser `snapToGrid` and the sheet constants.
- **Controller** (`UseCanvas`): the state behind the canvas.
  - It is a class `Canvas`, whose fields are the element list, the selection, the viewport, the drag ghost, the pan-gesture refs and the symbol drawables on the surface.
  - Its handlers cover selection, live move/resize snapping, commit, pan, drop, drag-over, wheel zoom and the render pass.
  - The updater lambdas and the wheel arithmetic are pure functions beside the class.
- **Viewport buttons**:
  - the toolbar's step zoom and reset (`AppLayout`);
  - the status bar's discrete zoom levels (`StatusBar`);
  - a cross-handler invariant: from the initial viewport, the zoom stays in [0.2, 2] (`ViewportInvariant`).
- **Symbol materialisation**:
  - the loader's emptiness rule, symbol groups, the category fallback shapes and the module cache (`SvgUtils`);
  - the conversion of an SVG document into Konva shapes (`SvgParser`): five collecting loops over the elements, and one shared key counter.
- **Editors**: the property form (`PropertyPanel`) and the title-block form (`TitleBlockPanel`).
- **Library filtering**:
  - the search filter (`SymbolStore`);
  - the category selector and the list area (`SymbolPanel`);
  - the order-preserving filter, the first-match lookup and sub-list facts (`Lists`).
- **Diagram store** (`Database`): save, load, list newest-first and delete, over a map.
- **Sheet layout**:
  - the Konva grid lines (`CanvasGrid`);
  - the title block's column offsets, placement, separators and placeholder texts (`TitleBlock`).

Modelling choices:

- **Numbers and external values:**
  - Coordinates and zoom are `real`. `Math.round(v)` is `(v + 0.5).Floor`.
  - The clock, `Date.now()`, the id generator, the SVG loader and `String.prototype.toLowerCase` are parameters.
  - JavaScript truthiness (`||` defaults, `if (obj.dataId)`) is written out: a missing, empty, zero or NaN value is falsy.
  - `Number(text)` is an attribute's `Num` (NaN or a real), given with the parsed document.
- **Fabric objects** are `Fabric.Drawable` records. Two kinds of tag are kept apart, as in the code:
  - SVG-rendered objects carry `data.id` (`dataTag`);
  - fallback shapes carry `dataId`.

  The selection, move, resize and commit handlers look only at `dataId`.

Two places where the code does less than its captions suggest, or disagrees with itself; the model follows the code:

- The toolbar shows undo, redo and delete buttons, but their handlers are empty. There is no history stack.
- The step buttons allow zoom down to 0.2, while the wheel clamps to [0.25, 2].

## Model

| member | source | states |
|---|---|---|
| GridUtils.SnapToGrid | src/utils/grid-utils.ts:4-9 | both snapped coordinates are integer multiples of the grid size; the grid size defaults to 10 |
| GridUtils.Round | src/utils/grid-utils.ts:6-7 | `Math.round` gives the integer within half of its input, and an exact half rounds up |
| GridUtils.SnapIsMultiple | src/utils/grid-utils.ts:6-7 | a snapped coordinate is an integer multiple of the grid |
| GridUtils.SnapIdempotent | src/utils/grid-utils.ts:4-9 | snapping a snapped point returns it unchanged |
| GridUtils.SnapCoordIdempotent | src/utils/grid-utils.ts:6-7 | snapping one coordinate twice is snapping it once |
| GridUtils.SnapWithinHalfCell | src/utils/grid-utils.ts:6-7 | for a positive grid, each output lies within half a cell of its input (strict below, inclusive above) |
| GridUtils.SnapTieRoundsUp | src/utils/grid-utils.ts:6-7 | a value exactly half-way between grid lines snaps to the upper line |
| GridUtils.SnapAxesIndependent | src/utils/grid-utils.ts:6-7 | output x depends only on input x, output y only on input y |
| GridUtils.SheetConstants | src/utils/grid-utils.ts:1-21 | GRID_SIZE 10, MAJOR_GRID_SIZE = 5 x GRID_SIZE, A3 is 1160 x 600, margin and title-block height 40, DRAWING_AREA equals A3 |
| UseCanvas.ClampWheelZoom | src/hooks/useCanvas.ts:531 | the clamped zoom lies in [0.25, 2], is the input inside that range and the nearer bound outside it |
| UseCanvas.PointerPosition | src/hooks/useCanvas.ts:154-161 | the pointer relative to the canvas rectangle, or the origin without one |
| UseCanvas.WheelZoom | src/hooks/useCanvas.ts:517-536 | the new zoom is in [0.25, 2] for any old zoom: the clamped quotient by 1.08 when deltaY > 0, else the clamped product |
| UseCanvas.WheelZoomKeepsAnchor | src/hooks/useCanvas.ts:525-535 | the world point under the pointer is the same before and after the wheel step |
| UseCanvas.WheelZoomDirection | src/hooks/useCanvas.ts:529-531 | within [0.25, 2], scrolling down never zooms in and scrolling up never zooms out |
| UseCanvas.WheelOutBelowFloorRaisesZoom | src/hooks/useCanvas.ts:531 | a wheel-out at the button floor 0.2 raises the zoom to 0.25 |
| UseCanvas.PanBy | src/hooks/useCanvas.ts:140-146 | one move adds the pointer delta to the pan and keeps the zoom |
| UseCanvas.PanGestureTelescopes | src/hooks/useCanvas.ts:133-151 | over a gesture, the pan changes by the last pointer minus the first, and the zoom is untouched |
| UseCanvas.MovingSnap | src/hooks/useCanvas.ts:72-80 | a `dataId` drawable gets left/top on multiples of 10 and nothing else changes; others are untouched |
| UseCanvas.MovingSnapNearAndStable | src/hooks/useCanvas.ts:75-78 | the snapped position is within 5 of the dragged one, and snapping again changes nothing |
| UseCanvas.SnapSize | src/hooks/useCanvas.ts:87-88 | a resized dimension is a multiple of 10 and at least 10 |
| UseCanvas.ScalingSnap | src/hooks/useCanvas.ts:84-96 | a `dataId` drawable gets width/height of at least 10 on multiples of 10, with scale reset to 1; nothing else changes |
| UseCanvas.ScalingSnapNear | src/hooks/useCanvas.ts:87-88 | a scaled size of at least 10 is snapped to within 5 of itself |
| UseCanvas.ScalingSnapStable | src/hooks/useCanvas.ts:84-96 | resizing a just-snapped drawable again changes nothing |
| UseCanvas.MultipleIsOwnSnap | src/hooks/useCanvas.ts:87-88 | a multiple of 10 that is at least 10 is its own snapped size |
| UseCanvas.CommitElement | src/hooks/useCanvas.ts:104-111 | position becomes the drawable's centre, width/height are copied, rotation is the angle or 0, and id, symbol and properties are kept |
| UseCanvas.Commit | src/hooks/useCanvas.ts:100-113 | the list keeps its length; only elements with the drawable's id change, each to its committed form |
| UseCanvas.CommitIdempotent | src/hooks/useCanvas.ts:103-113 | committing the same drawable twice equals committing it once |
| UseCanvas.CommitFallbackRecoversPlacement | src/hooks/useCanvas.ts:107 | committing an untouched outlet or default fallback gives back the element's position and rotation |
| UseCanvas.NewElement | src/hooks/useCanvas.ts:181-187 | a dropped element has the symbol's id, the given position, rotation 0, empty properties, no size, and id `symbolId-now` |
| UseCanvas.DropElements | src/hooks/useCanvas.ts:176-189 | a symbol payload appends exactly one element at the snapped pointer, leaving earlier elements untouched; no payload leaves the list unchanged |
| UseCanvas.DropIdsDiffer | src/hooks/useCanvas.ts:182 | drops at different times give different element ids |
| Lists.Find | src/hooks/useCanvas.ts:451 | `find` gives the first element passing the test, or none exactly when no element passes it; the render pass and the property form both look up by id with it |
| UseCanvas.RenderOne | src/hooks/useCanvas.ts:453-491 | a parse with objects gives one object (or their group) placed at the element, tagged `data.id`, origin top-left; a failed or empty parse gives the category fallback |
| UseCanvas.Renderable | src/hooks/useCanvas.ts:450-452 | an order-preserving sub-list of the elements that keeps every element whose symbol is in the library, and only those |
| UseCanvas.RenderPassIsMapOverRenderable | src/hooks/useCanvas.ts:449-492 | the pass yields exactly one drawable per element with a known symbol, in element order, and skips the rest |
| UseCanvas.RenderedObjectsCarryElementIds | src/hooks/useCanvas.ts:468-488 | every rendered drawable carries its element's id, as `data.id` or as `dataId` |
| UseCanvas.SurfaceGridLines | src/hooks/useCanvas.ts:247-270 | width/10+1 vertical lines at x = 10k + 0.5, then height/10+1 horizontal ones, covering both ends |
| UseCanvas.SurfaceLineStyle | src/hooks/useCanvas.ts:248-268 | every fifth line is major; no grid line is selectable or evented, and all are excluded from export |
| UseCanvas.Canvas.constructor | src/stores/canvasStore.ts:4-6 | no elements, no selection, zoom 1 at pan (0,0), no drag, no gesture |
| UseCanvas.Canvas.HandleBackgroundClick | src/hooks/useCanvas.ts:51-55 | a click on nothing clears the selection; nothing else changes |
| UseCanvas.Canvas.HandleObjectSelected | src/hooks/useCanvas.ts:59-64 | a `dataId` drawable becomes the only selected id; anything else changes nothing; at most one id is ever selected |
| UseCanvas.Canvas.HandleSelectionCleared | src/hooks/useCanvas.ts:69 | the selection becomes empty |
| UseCanvas.Canvas.HandleObjectMoving | src/hooks/useCanvas.ts:72-80 | the target drawable is replaced in place by its snapped form |
| UseCanvas.Canvas.HandleObjectScaling | src/hooks/useCanvas.ts:84-96 | the target drawable is replaced in place by its resized form |
| UseCanvas.Canvas.HandleObjectModified | src/hooks/useCanvas.ts:100-115 | a `dataId` drawable is committed into the element list; `data.id` drawables are ignored |
| UseCanvas.Canvas.HandleMouseDown | src/hooks/useCanvas.ts:133-139 | only the middle button or ctrl+left starts a gesture at the pointer |
| UseCanvas.Canvas.HandleMouseMove | src/hooks/useCanvas.ts:140-147 | during a gesture the pan follows the pointer delta and the last pointer moves |
| UseCanvas.Canvas.HandleMouseUp | src/hooks/useCanvas.ts:148-151 | the gesture ends and the last pointer is cleared |
| UseCanvas.Canvas.SetDraggedSymbol | src/hooks/useCanvas.ts:25 | only the dragged symbol changes |
| UseCanvas.Canvas.HandleDragOver | src/hooks/useCanvas.ts:163-170 | while a symbol is dragged, the ghost is the snapped pointer |
| UseCanvas.Canvas.HandleDrop | src/hooks/useCanvas.ts:172-190 | the ghost and the dragged symbol are cleared, and the element list is updated by the drop |
| UseCanvas.Canvas.HandleDragLeave | src/hooks/useCanvas.ts:192-194 | the ghost is cleared |
| UseCanvas.Canvas.HandleWheel | src/hooks/useCanvas.ts:515-537 | with a canvas rectangle the viewport takes the wheel step; without one nothing changes |
| UseCanvas.Canvas.RenderSymbols | src/hooks/useCanvas.ts:446-494 | the surface's symbol drawables are rebuilt by the render pass over the current elements |
| AppLayout.ZoomIn | src/components/Layout/AppLayout.tsx:104-109 | zoom becomes min(2, zoom + 0.1), never above MAX_ZOOM; pan is kept |
| AppLayout.ZoomOut | src/components/Layout/AppLayout.tsx:110-115 | zoom becomes max(0.2, zoom - 0.1), never below MIN_ZOOM; pan is kept |
| AppLayout.ResetView | src/components/Layout/AppLayout.tsx:116-118 | the result is the initial viewport, zoom 1 at pan (0,0) |
| AppLayout.ResetIdempotent | src/components/Layout/AppLayout.tsx:116-118 | resetting twice is resetting once |
| AppLayout.StepZoomKeepsRange | src/components/Layout/AppLayout.tsx:104-115 | the step buttons keep a zoom in [0.2, 2] in that range |
| AppLayout.ZoomInTimesIsCappedSum | src/components/Layout/AppLayout.tsx:106 | n presses give min(2, zoom + 0.1 n) and keep the pan |
| AppLayout.ZoomOutTimesIsFlooredDifference | src/components/Layout/AppLayout.tsx:112 | n presses give max(0.2, zoom - 0.1 n) and keep the pan |
| AppLayout.StepsToMax | src/components/Layout/AppLayout.tsx:106 | that many steps of 0.1 take the zoom to at least 2 |
| AppLayout.ZoomInReachesMaxAndStays | src/components/Layout/AppLayout.tsx:106 | repeated zoom-in from any zoom of at most 2 reaches exactly 2, and a further press changes nothing |
| AppLayout.HandleEditAction | src/components/Layout/AppLayout.tsx:100-102 | undo, redo and delete each change no state |
| StatusBar.FindIndex | src/components/Layout/StatusBar.tsx:19 | the first position of the zoom by exact equality, or -1 exactly when it is not a level |
| StatusBar.LevelIndex | src/components/Layout/StatusBar.tsx:15-19 | each level is found at its own position |
| StatusBar.LevelZoomIn | src/components/Layout/StatusBar.tsx:22-26 | below the top level, the zoom goes one level up; at the top nothing changes; pan is kept |
| StatusBar.LevelZoomOut | src/components/Layout/StatusBar.tsx:27-31 | above the bottom level, the zoom goes one level down; at 0.25 or off the list nothing changes; pan is kept |
| StatusBar.OffListZoom | src/components/Layout/StatusBar.tsx:22-31 | from a zoom off the list, zoom-in jumps to 0.25 and zoom-out does nothing |
| StatusBar.ZoomOutUndoesZoomIn | src/components/Layout/StatusBar.tsx:22-31 | zoom-out after zoom-in restores any level at index 0..4 |
| StatusBar.ZoomInDisabledIffNoOp | src/components/Layout/StatusBar.tsx:67 | zoom-in is disabled exactly when pressing it would change nothing |
| StatusBar.ZoomOutDisabledIsNoOp | src/components/Layout/StatusBar.tsx:57 | a disabled zoom-out changes nothing, and zoom-out is a no-op exactly when the index is 0 or -1 |
| StatusBar.LevelZoomKeepsRange | src/components/Layout/StatusBar.tsx:15-31 | the level buttons keep a zoom in [0.2, 2] in that range |
| ViewportInvariant.Apply | src/components/Layout/AppLayout.tsx:104-118 | every viewport handler keeps the zoom in [0.2, 2]; zoom buttons keep the pan, reset gives the initial viewport, pan moves keep the zoom |
| ViewportInvariant.ZoomStaysInRange | src/stores/canvasStore.ts:6 | from the initial zoom 1, any sequence of button, wheel and pan events keeps the zoom in [0.2, 2] |
| SvgUtils.ParseSVGToFabric | src/utils/svg-utils.ts:18-26 | success exactly when the loader returns a non-empty object list, which is passed through; a missing or empty list is an error |
| SvgUtils.CreateSymbolGroup | src/utils/svg-utils.ts:34-60 | the group passes left, top, angle, width, height and `dataId` through, centred, selectable and evented |
| SvgUtils.CreateFallbackShape | src/utils/svg-utils.ts:68-183 | every category gives a shape carrying `dataId` and angle, selectable and evented, at the option's position minus the family's offset |
| SvgUtils.FallbackShapeByCategory | src/utils/svg-utils.ts:79-181 | switches a line, outlets a 30x30 rect, motors a circle r=22, protection a group of 3, distribution and lights groups of 4, anything else a 50x50 rect |
| SvgUtils.FallbackSquareCentredOnPosition | src/utils/svg-utils.ts:92-181 | for the outlet and default squares the offset is half the side, so the shape's centre is the requested point |
| SvgUtils.FabricCache.constructor | src/utils/svg-utils.ts:3 | the cache starts empty |
| SvgUtils.FabricCache.GetFabric | src/utils/svg-utils.ts:6-11 | the first call stores and returns the imported module; later calls return the cached one |
| SvgUtils.CacheKeepsFirstModule | src/utils/svg-utils.ts:6-11 | two calls on a fresh cache both return the first module |
| Fabric.GroupObject | src/hooks/useCanvas.ts:465 | the group holds the objects, and its extent covers each child horizontally and vertically |
| SvgParser.ParseColor | src/utils/svg-parser.tsx:4 | a non-empty colour is kept; a missing or empty one is '#000' |
| SvgParser.StrokeWidth | src/utils/svg-parser.tsx:36 | the numeric stroke width when truthy, else 2 |
| SvgParser.Fill | src/utils/svg-parser.tsx:52 | a fill is present exactly when the attribute is non-empty |
| SvgParser.SvgRoot | src/utils/svg-parser.tsx:18 | the first `svg` element, or none when there is none |
| SvgParser.OriginalSize | src/utils/svg-parser.tsx:19-20 | the root's size when truthy, else 50 (missing root, missing, zero or non-numeric attribute) |
| SvgParser.AxisScale | src/utils/svg-parser.tsx:21-22 | 1 without a target size, otherwise target / original |
| SvgParser.MakeShape | src/utils/svg-parser.tsx:26-99 | the shape has the element's tag, the given key, the parsed stroke and the defaulted stroke width |
| SvgParser.Matching | src/utils/svg-parser.tsx:25 | as many elements as the document has with the tag, each one of the document's elements with that tag |
| SvgParser.MatchingInDocumentOrder | src/utils/svg-parser.tsx:25 | `querySelectorAll` is the order-preserving filter by tag: a sub-list of the document that holds every element with the tag |
| SvgParser.PushShapes | src/utils/svg-parser.tsx:25-39 | one loop appends the shapes of one tag and advances the counter by their number |
| SvgParser.ParseSvgToKonvaShapes | src/utils/svg-parser.tsx:6-103 | the five loops produce lines, rects, circles, ellipses and paths with the counter running on |
| SvgParser.ShapesOfTagAt | src/utils/svg-parser.tsx:25-100 | the k-th shape of a loop is made from the k-th element with that tag and keyed with counter start + k |
| SvgParser.ShapesOfTagKeyed | src/utils/svg-parser.tsx:28 | a loop yields one shape per matched element, keyed from its start value |
| SvgParser.KeysFollowCounter | src/utils/svg-parser.tsx:15-92 | one shape per converted element, and shape i carries counter value i in its key |
| SvgParser.KeyInjective | src/utils/svg-parser.tsx:28-92 | keys from one prefix coincide only for the same tag and counter |
| SvgParser.KeysDistinct | src/utils/svg-parser.tsx:15-92 | the produced keys are pairwise distinct |
| SvgParser.ShapesGroupedByTag | src/utils/svg-parser.tsx:24-100 | lines first, then rects, circles, ellipses and paths |
| SvgParser.MakeShapeGeometry | src/utils/svg-parser.tsx:29-97 | line points, rect position and size, circle and ellipse centres and ellipse radii scaled per axis; the circle radius scaled by max(scaleX, scaleY); path data defaulting to '' with the scale passed on; `fill` on every shape but the line; stroke and width defaults |
| SvgParser.ScaleDefaults | src/utils/svg-parser.tsx:19-22 | no target size gives scale 1; a document without a root scales against 50 |
| PropertyPanel.View | src/components/Toolbar/PropertyPanel.tsx:10-51 | an empty selection shows the prompt; an unknown id shows nothing; otherwise the first selected element's keys, with the note exactly when there are none |
| PropertyPanel.HandleChange | src/components/Toolbar/PropertyPanel.tsx:24-29 | the list keeps its length; only elements with the id change, and only `properties[name] = value`, with other keys kept |
| PropertyPanel.HandleChangeIdempotent | src/components/Toolbar/PropertyPanel.tsx:26-28 | the same change twice equals it once |
| PropertyPanel.EditIsShown | src/components/Toolbar/PropertyPanel.tsx:19-45 | after an edit the form shows the same element with the new value |
| Lists.FindFirst | src/components/Toolbar/PropertyPanel.tsx:19 | the lookup returns the first element passing the test, so the form edits the first element with the selected id |
| SymbolStore.FilteredSymbols | src/stores/symbolStore.ts:6-16 | a query that lower-cases to the empty string returns the library; otherwise an order-preserving sub-list keeping exactly the symbols whose lower-cased name or category contains the lower-cased query, for the runtime's lower-casing `lower` |
| SymbolStore.EmptyQueryMatchesAll | src/stores/symbolStore.ts:10 | every symbol matches the empty query |
| SymbolStore.CaseInsensitive | src/stores/symbolStore.ts:8 | queries with the same lower-cased form give identical results |
| SymbolStore.LongerQueryNarrows | src/stores/symbolStore.ts:11-15 | a query containing a shorter one returns a sub-list of the shorter one's result |
| SymbolPanel.CategoryFilter | src/components/SymbolLibrary/SymbolPanel.tsx:33-35 | the empty category keeps the results; any other keeps exactly those of that category, in order |
| SymbolPanel.DisplayedIsSublist | src/components/SymbolLibrary/SymbolPanel.tsx:28-35 | the displayed list is a sub-list of the library |
| SymbolPanel.MotorsOnlyUnderAll | src/components/SymbolLibrary/SymbolPanel.tsx:17-24 | 'motors' is a declared category, but no offered option shows a motor |
| SymbolPanel.ListView | src/components/SymbolLibrary/SymbolPanel.tsx:81-118 | loading shows skeletons, an error shows the error, else the cards, with "No symbols found" exactly when none are left |
| TitleBlockPanel.HandleChange | src/TitleBlock/TitleBlockPanel.tsx:19-22 | field `name` becomes `value`, every other field is unchanged |
| TitleBlockPanel.HandleChangeIdempotent | src/TitleBlock/TitleBlockPanel.tsx:21 | the same change twice equals it once |
| TitleBlockPanel.ShownValue | src/TitleBlock/TitleBlockPanel.tsx:32 | the field's value, or '' when unset |
| TitleBlockPanel.EditIsShown | src/TitleBlock/TitleBlockPanel.tsx:21-32 | an edited field shows what was typed |
| TitleBlockPanel.FieldsAreInitialKeys | src/TitleBlock/TitleBlockPanel.tsx:6-14 | the seven field names are keys of the initial record, all empty |
| Database.SaveId | src/data/db/database.ts:38 | a non-empty supplied id is kept; an absent or empty one is replaced by the fresh id |
| Database.SavedRecord | src/data/db/database.ts:36-48 | the input's fields, `updatedAt` now, and `createdAt` from an existing non-empty record, else now |
| Database.NewestFirstPairwise | src/data/db/database.ts:57 | newest-first between neighbours gives it between any two records |
| Database.InsertNewestFirst | src/data/db/database.ts:57 | inserting keeps the list newest-first and adds exactly the record |
| Database.DiagramStore.constructor | src/data/db/database.ts:22-33 | the store starts empty |
| Database.DiagramStore.Save | src/data/db/database.ts:36-48 | the saved record is written under its id, replacing any old one, and returned |
| Database.DiagramStore.Load | src/data/db/database.ts:51-53 | the record under the id, or none |
| Database.DiagramStore.Delete | src/data/db/database.ts:61-63 | only that id is removed |
| Database.DiagramStore.List | src/data/db/database.ts:56-58 | every record exactly once, sorted by `updatedAt` descending |
| Database.SaveThenLoad | src/data/db/database.ts:46-53 | after a save, loading its id gives the saved record and other ids load what they did before |
| Database.RepeatedSavesKeepCreatedAt | src/data/db/database.ts:39-44 | repeated saves to one id keep the first save's `createdAt` |
| Database.FirstSaveStampsCreatedAt | src/data/db/database.ts:39-44 | the first save of an id sets `createdAt` and `updatedAt` to now |
| CanvasGrid.VerticalLine | src/components/Canvas/CanvasGrid.tsx:15-26 | a line at x spanning the full height, keyed `v-x`, not listening; major colour and 1.2 exactly when x is a multiple of 50, else minor and 0.7 |
| CanvasGrid.HorizontalLine | src/components/Canvas/CanvasGrid.tsx:29-40 | a line at y spanning the full width, keyed `h-y`, not listening; major exactly on multiples of 50 |
| CanvasGrid.Lines | src/components/Canvas/CanvasGrid.tsx:12-40 | all vertical lines at x = 0, 10, ..., then all horizontal lines at y = 0, 10, ... |
| CanvasGrid.LineCounts | src/components/Canvas/CanvasGrid.tsx:5-40 | 117 vertical lines up to x = 1160 and 61 horizontal lines up to y = 600 |
| CanvasGrid.MajorEveryFifth | src/components/Canvas/CanvasGrid.tsx:16 | the k-th line is major exactly when k is a multiple of 5 |
| CanvasGrid.KeysDistinct | src/components/Canvas/CanvasGrid.tsx:19-33 | the keys `v-x`/`h-y` are pairwise distinct |
| TitleBlock.ColumnOffsets | src/components/Canvas/TitleBlock.tsx:11-14 | the `reduce` yields, for each column, the sum of the widths before it |
| TitleBlock.OffsetsRecurrence | src/components/Canvas/TitleBlock.tsx:11-14 | COL_X has the length of COLS, COL_X[0] = 0 and COL_X[i] = COL_X[i-1] + COLS[i-1] |
| TitleBlock.ColumnLayout | src/components/Canvas/TitleBlock.tsx:7-14 | COL_X = [0, 56, 136, 226, 282]; COLS sums to 340, so the last column ends at the block edge |
| TitleBlock.Placement | src/components/Canvas/TitleBlock.tsx:18-19 | the block's right and bottom edges lie one margin inside the sheet |
| TitleBlock.PlacementOnA3 | src/components/Canvas/TitleBlock.tsx:8-19 | on A3 the block is at (780, 480), and two rows of 40 fill its height |
| TitleBlock.VerticalSeparators | src/components/Canvas/TitleBlock.tsx:27-29 | one full-height separator per column edge after the first |
| TitleBlock.FourSeparators | src/components/Canvas/TitleBlock.tsx:27-29 | exactly 4 separators, at 56 to 282, none at the left edge |
| TitleBlock.Shown | src/components/Canvas/TitleBlock.tsx:43-57 | a non-empty field shows its value; an unset or empty one shows the placeholder |
| TitleBlock.ValueTexts | src/components/Canvas/TitleBlock.tsx:43-57 | eight slots; the page slot is "1 / 1", the title slot reads `ecsaNumber`, and the revision slot reads `revision` |
| TitleBlock.InitialShowsPlaceholders | src/components/Canvas/TitleBlock.tsx:43-57 | the initial record shows every placeholder |
| TitleBlock.TitleSlotAlwaysPlaceholder | src/components/Canvas/TitleBlock.tsx:55-57 | no sequence of form edits sets `ecsaNumber` or `revision`, so the title slot keeps showing '<Title>' and the revision slot 'A' |
| TitleBlock.InitialTitleSlot | src/components/Canvas/TitleBlock.tsx:55-57 | from the initial record, whatever is typed into the form, the title slot shows '<Title>' and the revision slot 'A' |
| TitleBlock.IntendedValueTexts | src/components/Canvas/TitleBlock.tsx:55 | the slots as drawn, except that the title slot reads `drawingTitle` |
| TitleBlock.ApplyEditsSnoc | src/TitleBlock/TitleBlockPanel.tsx:21 | a last edit is applied after the others |
| TitleBlock.TypedTitleIsShown | src/components/Canvas/TitleBlock.tsx:55 | with the intended slot, the last text typed into the drawing-title field is shown |

## Left out

- **Runtime and rendering:**
  - The Fabric, Konva and React runtimes: canvas creation and disposal, event registration, `renderAll` and the JSX layout.
  - The border and title block that the surface set-up of src/hooks/useCanvas.ts draws beside its grid, and its logo loading. Only the set-up's grid loops are modelled.
  - src/components/Canvas/DrawingBorder.tsx, the toolbar, header, snackbar and library-item views. These are presentation only.
- **Excluded features:**
  - The text tool of src/hooks/useCanvas.ts, a Fabric text box behind a timer.
  - History. The code has no history stack; undo, redo and delete are empty.
- **Parsers and loaders:**
  - Fabric's `loadSVGFromString` is an input: the `load` parameter gives the loader's result for a symbol's markup.
  - `DOMParser` and XML parsing are not modelled. The document is given as its elements in document order, together with their attributes.
  - `JSON.parse` of the drop payload is not modelled; the payload is given as `DropData`.
- **Asynchrony and I/O:**
  - The asynchronous ordering of the render pass, and races between overlapping passes. These are concurrency.
  - The fetch of the symbol catalogue in src/hooks/useSymbols.ts. It is I/O; `SymbolPanel.ListView` takes its `loading` and `error` as inputs.
  - Dexie and IndexedDB internals: the store is a map. `new Date().toISOString()`, `Date.now()` and `Math.random()` are the `now` and `freshId` parameters.
- **Numbers:** IEEE floating-point rounding; coordinates are exact reals, so 0.1 and 1.08 are exact.
- **Event registration:** the model treats the selection, move, resize and commit handlers as attached to the canvas. In src/hooks/useCanvas.ts the effect that attaches them (lines 46-127) returns at once while `fabricRef.current` is null. The canvas is only assigned at line 242, inside the asynchronous `import('fabric')` of line 228. The effect re-runs only when `setSelected` or `setElements` change, and those setters are stable. So in the code as written these handlers are probably never attached. This is a reading of the source; nothing was executed, and the React effect scheduling it depends on is not modelled.
- The draggedSymbolAtom declaration is not part of this model; it is taken as initially null.
- **Weaker contracts:**
  - SymbolStore.FilteredSymbols: JavaScript's `toLowerCase` is the parameter `lower`, and no property of it is assumed. The model therefore states nothing that depends on the Unicode case tables. For example, it does not state that a symbol named "Éclairage" matches the query "é". Strings are sequences of UTF-16 code units, so `includes` compares code units.
  - PropertyPanel.View: the form's fields are the set of the element's property keys. The order in which `Object.entries` lays out the inputs is not modelled.
  - Database.DiagramStore.List: the order among records with equal `updatedAt` is not fixed. Timestamps are compared as strings; for ISO-8601 timestamps this is order in time.
  - Fabric.GroupObject: Fabric's own group layout is replaced by the bounding box of the children, without stroke width.
  - UseCanvas.RenderOne: the separate `type === 'group'` branch is not distinguished from the single-object branch, because both take the object as it is.
  - UseCanvas.Canvas.HandleObjectSelected: targets are indices into the surface's symbol drawables. `Empty` stands for null and for the background image, which the code never sets. Grid, border and title-block objects are never targets, because they are not evented.
  - UseCanvas.MovingSnap: the snap that src/hooks/useCanvas.ts defines locally is the same formula as `snapToGrid` with grid 10, so the model uses `GridUtils.SnapToGrid` for both.

## Findings

| source | as written | input that shows it | evidently intended | confidence | as-written member | corrected member |
|---|---|---|---|---|---|---|
| src/components/Canvas/TitleBlock.tsx:55 | the "Drawing Title(s)" slot shows `titleBlock.ecsaNumber`, falling back to '<Title>', but neither the initial record nor any field of the title-block form has an `ecsaNumber` key | type "Lighting plan" into the form's "Drawing Title(s)" field: the block still shows '<Title>' | the slot reads `drawingTitle`, the field the form edits under the same caption. The revision slot (line 57) likewise reads `revision`, which nothing sets, so it always shows 'A'; the form has no revision field, so that may be intended and is not claimed as a bug | not executed; medium (read from the source) | TitleBlock.TitleSlotAlwaysPlaceholder | TitleBlock.TypedTitleIsShown |
