/** Data model of the schematic editor: the element, viewport and symbol records
    (src/types/canvas.ts, src/types/symbols.ts) and the initial values of the
    state atoms (src/stores/canvasStore.ts, src/stores/titleBlockStore.ts). */
module CanvasTypes {

  datatype Option<+T> = None | Some(value: T)

  /** A point in world or screen space. */
  datatype Point = Point(x: real, y: real)

  /** Zoom factor and screen-space pan offset. */
  datatype Viewport = Viewport(zoom: real, pan: Point)

  /** An element's open key/value property record; values are the strings the
      property form writes. */
  type Properties = map<string, string>

  /** One placed symbol instance on the sheet. `width`/`height` are present only
      after a move or resize has been committed. */
  datatype CanvasElement = CanvasElement(
    id: string,
    symbolId: string,
    position: Point,
    rotation: real,
    properties: Properties,
    width: Option<real>,
    height: Option<real>)

  datatype ConnectionKind = Input | Output

  datatype ConnectionPoint = ConnectionPoint(x: real, y: real, kind: ConnectionKind)

  datatype Dimensions = Dimensions(width: real, height: real)

  /** A symbol definition of the catalog. The category is kept as a string: the
      catalog is loaded from JSON and the code compares it with names outside the
      declared union (for instance "distribution"). */
  datatype ElectricalSymbol = ElectricalSymbol(
    id: string,
    name: string,
    category: string,
    svg: string,
    connectionPoints: seq<ConnectionPoint>,
    properties: Properties,
    sansCompliant: bool,
    dimensions: Dimensions)

  /** The five members of the declared category union. */
  const SymbolCategories: seq<string> := ["switches", "lights", "outlets", "protection", "motors"]

  /** Title-block data: field name to text. */
  type TitleBlockData = map<string, string>

  /** Initial viewport atom: zoom 1, no pan. */
  const InitialViewport: Viewport := Viewport(1.0, Point(0.0, 0.0))

  /** Initial title-block atom: seven fields, all empty. */
  const InitialTitleBlock: TitleBlockData := map[
    "company" := "", "project" := "", "designer" := "", "date" := "",
    "scale" := "", "drawingTitle" := "", "details" := ""]
}
