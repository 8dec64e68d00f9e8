/** The drawable objects the canvas surface holds, written as records. A record
    stands for one Fabric object: its kind and geometry, its scale, its angle, the
    `dataId` back-reference the fallback shapes carry and the `data.id` tag the
    render pass writes on parsed objects. */
module Fabric {
  import opened CanvasTypes

  datatype Origin = TopLeft | Center

  datatype Kind =
    | Line(x1: real, y1: real, x2: real, y2: real)
    | Rect
    | Circle(radius: real)
    | Group(children: seq<Drawable>)
    | Primitive(tag: string)

  datatype Drawable = Drawable(
    kind: Kind,
    left: real,
    top: real,
    width: real,
    height: real,
    scaleX: real,
    scaleY: real,
    angle: Option<real>,
    dataId: Option<string>,
    dataTag: Option<string>,
    selectable: bool,
    evented: bool,
    origin: Origin)

  /** JavaScript truthiness of `obj.dataId`: present and not the empty string. */
  predicate HasDataId(d: Drawable)
  {
    d.dataId.Some? && d.dataId.value != ""
  }

  function Abs(v: real): real
  {
    if v < 0.0 then -v else v
  }

  function Min(a: real, b: real): real
  {
    if a <= b then a else b
  }

  function Max(a: real, b: real): real
  {
    if a <= b then b else a
  }

  /** A new object with Fabric's defaults: unit scale, no angle, no tags,
      selectable and evented, origin at the top-left corner. */
  function Plain(kind: Kind, left: real, top: real, width: real, height: real): Drawable
  {
    Drawable(kind, left, top, width, height, 1.0, 1.0, None, None, None, true, true, TopLeft)
  }

  /** `new Line([x1, y1, x2, y2])`: the box spans the two end points. */
  function LineObject(x1: real, y1: real, x2: real, y2: real): (d: Drawable)
    ensures d.left == Min(x1, x2) && d.top == Min(y1, y2)
    ensures d.width == Abs(x2 - x1) && d.height == Abs(y2 - y1)
  {
    Plain(Line(x1, y1, x2, y2), Min(x1, x2), Min(y1, y2), Abs(x2 - x1), Abs(y2 - y1))
  }

  /** `new Circle({ radius })`: the box is the diameter wide and high. */
  function CircleObject(left: real, top: real, radius: real): (d: Drawable)
    ensures d.width == d.height == 2.0 * radius
  {
    Plain(Circle(radius), left, top, 2.0 * radius, 2.0 * radius)
  }

  datatype Box = Box(minX: real, minY: real, maxX: real, maxY: real)

  function BoxOf(d: Drawable): Box
  {
    Box(d.left, d.top, d.left + d.width * d.scaleX, d.top + d.height * d.scaleY)
  }

  /** The bounding box of a list of objects (the empty box for no objects). */
  function Bounds(ds: seq<Drawable>): (b: Box)
    ensures forall i :: 0 <= i < |ds| ==> b.minX <= BoxOf(ds[i]).minX && BoxOf(ds[i]).maxX <= b.maxX
    ensures forall i :: 0 <= i < |ds| ==> b.minY <= BoxOf(ds[i]).minY && BoxOf(ds[i]).maxY <= b.maxY
  {
    if |ds| == 0 then Box(0.0, 0.0, 0.0, 0.0)
    else if |ds| == 1 then BoxOf(ds[0])
    else
      var a := BoxOf(ds[0]);
      var rest := Bounds(ds[1..]);
      Box(Min(a.minX, rest.minX), Min(a.minY, rest.minY), Max(a.maxX, rest.maxX), Max(a.maxY, rest.maxY))
  }

  /** `new Group(children, {})`: the group is laid out around its children. */
  function GroupObject(children: seq<Drawable>): (d: Drawable)
    ensures d.kind == Group(children)
    ensures forall i :: 0 <= i < |children| ==>
      && d.left <= children[i].left && BoxOf(children[i]).maxX <= d.left + d.width
      && d.top <= children[i].top && BoxOf(children[i]).maxY <= d.top + d.height
  {
    var b := Bounds(children);
    Plain(Group(children), b.minX, b.minY, b.maxX - b.minX, b.maxY - b.minY)
  }
}
