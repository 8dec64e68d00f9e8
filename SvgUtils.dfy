/** Symbol materialisation helpers (src/utils/svg-utils.ts): the emptiness rule on
    the SVG loader's result, symbol groups, the procedural fallback shape per
    category, and the module-level cache of the loaded drawing library. */
module SvgUtils {
  import opened CanvasTypes
  import opened Fabric

  /** What the SVG loader (`loadSVGFromString`) hands back: a rejection, or a
      result whose `objects` list may be missing. The loader itself is not
      modelled; its outcome is an input. */
  datatype LoadResult = LoadFailed(reason: string) | Loaded(objects: Option<seq<Drawable>>)

  datatype ParseOutcome = Parsed(objects: seq<Drawable>) | ParseError(message: string)

  const NoObjectsMessage: string := "Failed to parse SVG: No objects created"

  /** `parseSVGToFabric`: never succeeds with an empty list; a missing or empty
      object list is an error, and so is a rejected load. */
  function ParseSVGToFabric(result: LoadResult): (r: ParseOutcome)
    ensures r.Parsed? <==> result.Loaded? && result.objects.Some? && |result.objects.value| > 0
    ensures r.Parsed? ==> |r.objects| > 0 && r.objects == result.objects.value
    ensures result.Loaded? && r.ParseError? ==> r.message == NoObjectsMessage
  {
    match result
    case LoadFailed(reason) => ParseError(reason)
    case Loaded(objects) =>
      if objects.None? || |objects.value| == 0 then ParseError(NoObjectsMessage)
      else Parsed(objects.value)
  }

  datatype GroupOptions = GroupOptions(left: real, top: real, angle: real, width: real, height: real, dataId: string)

  /** `createSymbolGroup`: a centred group that carries the options unchanged. */
  function CreateSymbolGroup(objects: seq<Drawable>, options: GroupOptions): (g: Drawable)
    ensures g.kind == Group(objects)
    ensures g.left == options.left && g.top == options.top && g.angle == Some(options.angle)
    ensures g.width == options.width && g.height == options.height
    ensures g.dataId == Some(options.dataId) && g.origin == Center
    ensures g.selectable && g.evented && g.scaleX == 1.0 && g.scaleY == 1.0
  {
    Drawable(Group(objects), options.left, options.top, options.width, options.height,
             1.0, 1.0, Some(options.angle), Some(options.dataId), None, true, true, Center)
  }

  datatype FallbackOptions = FallbackOptions(left: real, top: real, angle: real, dataId: string)

  /** The shape families the fallback can produce. */
  datatype ShapeFamily = SwitchLine | OutletSquare | MotorCircle | ProtectionGroup | DistributionGroup | LightGroup | GenericSquare

  /** The category dispatch of `createFallbackShape`; every other category,
      known or not, takes the default branch. */
  function FamilyOf(category: string): ShapeFamily
  {
    if category == "switches" then SwitchLine
    else if category == "outlets" then OutletSquare
    else if category == "motors" then MotorCircle
    else if category == "protection" then ProtectionGroup
    else if category == "distribution" then DistributionGroup
    else if category == "lights" then LightGroup
    else GenericSquare
  }

  /** The amount subtracted from the requested left and top for each family. */
  function Offset(f: ShapeFamily): (real, real)
  {
    match f
    case SwitchLine => (20.0, 12.5)
    case OutletSquare => (15.0, 15.0)
    case MotorCircle => (22.0, 22.0)
    case _ => (25.0, 25.0)
  }

  /** Puts an object at the offset position with the fallback's tags. */
  function Tagged(d: Drawable, f: ShapeFamily, options: FallbackOptions): Drawable
  {
    d.(left := options.left - Offset(f).0, top := options.top - Offset(f).1,
       angle := Some(options.angle), dataId := Some(options.dataId),
       selectable := true, evented := true)
  }

  function ProtectionParts(): seq<Drawable>
  {
    [LineObject(25.0, 0.0, 25.0, 15.0), Plain(Rect, 15.0, 15.0, 20.0, 20.0), LineObject(25.0, 35.0, 25.0, 50.0)]
  }

  function DistributionParts(): seq<Drawable>
  {
    [Plain(Rect, 10.0, 10.0, 30.0, 30.0), LineObject(15.0, 20.0, 35.0, 20.0),
     LineObject(15.0, 25.0, 35.0, 25.0), LineObject(15.0, 30.0, 35.0, 30.0)]
  }

  function LightParts(): seq<Drawable>
  {
    [CircleObject(13.0, 13.0, 12.0), LineObject(25.0, 13.0, 25.0, 37.0),
     LineObject(13.0, 25.0, 37.0, 25.0), LineObject(25.0, 37.0, 25.0, 45.0)]
  }

  /** `createFallbackShape`: a procedural shape for every category. */
  function CreateFallbackShape(category: string, options: FallbackOptions): (d: Drawable)
    ensures d.dataId == Some(options.dataId) && d.angle == Some(options.angle)
    ensures d.selectable && d.evented && d.dataTag.None?
    ensures d.left == options.left - Offset(FamilyOf(category)).0
    ensures d.top == options.top - Offset(FamilyOf(category)).1
  {
    var f := FamilyOf(category);
    var shape := match f
      case SwitchLine => LineObject(0.0, 25.0, 40.0, 25.0)
      case OutletSquare => Plain(Rect, 0.0, 0.0, 30.0, 30.0)
      case MotorCircle => CircleObject(0.0, 0.0, 22.0)
      case ProtectionGroup => GroupObject(ProtectionParts())
      case DistributionGroup => GroupObject(DistributionParts())
      case LightGroup => GroupObject(LightParts())
      case GenericSquare => Plain(Rect, 0.0, 0.0, 50.0, 50.0);
    Tagged(shape, f, options)
  }

  /** The shape chosen for each category. */
  lemma FallbackShapeByCategory(category: string, options: FallbackOptions)
    ensures var d := CreateFallbackShape(category, options);
      && (category == "switches" ==> d.kind == Line(0.0, 25.0, 40.0, 25.0))
      && (category == "outlets" ==> d.kind == Rect && d.width == 30.0 && d.height == 30.0)
      && (category == "motors" ==> d.kind == Circle(22.0))
      && (category == "protection" ==> d.kind.Group? && |d.kind.children| == 3)
      && (category == "distribution" ==> d.kind.Group? && |d.kind.children| == 4)
      && (category == "lights" ==> d.kind.Group? && |d.kind.children| == 4)
      && (category !in ["switches", "outlets", "motors", "protection", "distribution", "lights"] ==>
            d.kind == Rect && d.width == 50.0 && d.height == 50.0)
  {
  }

  /** For the outlet and the default square the offset is half the side, so the
      centre of the shape is the requested point: committing it recovers the
      position it was drawn for. */
  lemma FallbackSquareCentredOnPosition(category: string, options: FallbackOptions)
    requires FamilyOf(category) in {OutletSquare, GenericSquare}
    ensures var d := CreateFallbackShape(category, options);
      d.left + d.width / 2.0 == options.left && d.top + d.height / 2.0 == options.top
  {
  }

  /** The drawing library module, as the dynamic import yields it. */
  datatype FabricModule = FabricModule(name: string)

  /** The module-level cache behind `getFabric`. */
  class FabricCache {
    var fabricModule: Option<FabricModule>

    constructor ()
      ensures fabricModule == None
    {
      fabricModule := None;
    }

    /** Returns the cached module; on the first call, stores `imported`. */
    method GetFabric(imported: FabricModule) returns (m: FabricModule)
      modifies this
      ensures old(fabricModule).Some? ==> m == old(fabricModule).value && fabricModule == old(fabricModule)
      ensures old(fabricModule).None? ==> m == imported && fabricModule == Some(imported)
    {
      if fabricModule.None? {
        fabricModule := Some(imported);
      }
      m := fabricModule.value;
    }
  }

  /** After one call, every later call returns the first module, whatever it is given. */
  method CacheKeepsFirstModule(first: FabricModule, second: FabricModule) returns (a: FabricModule, b: FabricModule)
    ensures a == first && b == first
  {
    var cache := new FabricCache();
    a := cache.GetFabric(first);
    b := cache.GetFabric(second);
  }
}
