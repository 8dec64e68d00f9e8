/** Conversion of a symbol's SVG document into Konva shape descriptions
    (src/utils/svg-parser.tsx). The XML parser is not modelled: the document is
    given as its elements in document order, each with its attributes, and each
    attribute carries both its text and the number `Number(text)` yields. */
module SvgParser {
  import opened CanvasTypes
  import opened Text
  import opened Lists
  import Fabric

  /** A JavaScript number as `Number(...)` produces it: NaN or a finite value. */
  datatype Num = NaN | Num(value: real)

  datatype Attr = Attr(text: string, number: Num)

  datatype SvgElement = SvgElement(tag: string, attributes: map<string, Attr>)

  /** JavaScript truthiness of a number: not NaN and not zero. */
  predicate Truthy(n: Num)
  {
    n.Num? && n.value != 0.0
  }

  /** `el.getAttribute(name)`. */
  function TextAttr(el: SvgElement, name: string): Option<string>
  {
    if name in el.attributes then Some(el.attributes[name].text) else None
  }

  /** `Number(el.getAttribute(name))`; `Number(null)` is 0. */
  function NumberAttr(el: SvgElement, name: string): (n: Num)
    ensures name !in el.attributes ==> n == Num(0.0)
  {
    if name in el.attributes then el.attributes[name].number else Num(0.0)
  }

  /** Multiplication by a finite factor; NaN stays NaN. */
  function Times(n: Num, s: real): Num
  {
    match n
    case NaN => NaN
    case Num(v) => Num(v * s)
  }

  /** `parseColor`: the colour, or black when it is missing or empty. */
  function ParseColor(color: Option<string>): (c: string)
    ensures c != ""
    ensures color.Some? && color.value != "" ==> c == color.value
    ensures color.None? || color.value == "" ==> c == "#000"
  {
    if color.Some? && color.value != "" then color.value else "#000"
  }

  /** `Number(el.getAttribute('stroke-width')) || 2`. */
  function StrokeWidth(el: SvgElement): (w: real)
    ensures w != 0.0
    ensures !Truthy(NumberAttr(el, "stroke-width")) ==> w == 2.0
    ensures Truthy(NumberAttr(el, "stroke-width")) ==> w == NumberAttr(el, "stroke-width").value
  {
    var n := NumberAttr(el, "stroke-width");
    if Truthy(n) then n.value else 2.0
  }

  /** `el.getAttribute('fill') || undefined`. */
  function Fill(el: SvgElement): (f: Option<string>)
    ensures f.Some? <==> TextAttr(el, "fill").Some? && TextAttr(el, "fill").value != ""
  {
    var t := TextAttr(el, "fill");
    if t.Some? && t.value != "" then t else None
  }

  /** `doc.querySelector('svg')`: the first `svg` element, if any. */
  function SvgRoot(doc: seq<SvgElement>): (r: Option<SvgElement>)
    ensures r.Some? ==> r.value in doc && r.value.tag == "svg"
    ensures r.None? ==> forall i :: 0 <= i < |doc| ==> doc[i].tag != "svg"
  {
    if doc == [] then None
    else if doc[0].tag == "svg" then Some(doc[0])
    else SvgRoot(doc[1..])
  }

  /** `Number(svgEl?.getAttribute(name)) || 50`: a missing root gives NaN, a
      missing attribute 0, and both fall back to 50. */
  function OriginalSize(root: Option<SvgElement>, name: string): (s: real)
    ensures s != 0.0
    ensures root.None? ==> s == 50.0
    ensures root.Some? ==> s == (if Truthy(NumberAttr(root.value, name)) then NumberAttr(root.value, name).value else 50.0)
  {
    if root.None? then 50.0
    else
      var n := NumberAttr(root.value, name);
      if Truthy(n) then n.value else 50.0
  }

  /** `width ? width / origWidth : 1`. */
  function AxisScale(target: Option<real>, original: real): (s: real)
    requires original != 0.0
    ensures target.None? || target.value == 0.0 ==> s == 1.0
    ensures target.Some? && target.value != 0.0 ==> s * original == target.value
  {
    if target.Some? && target.value != 0.0 then target.value / original else 1.0
  }

  datatype Scale = Scale(x: real, y: real)

  function ScaleOf(doc: seq<SvgElement>, width: Option<real>, height: Option<real>): Scale
  {
    var root := SvgRoot(doc);
    Scale(AxisScale(width, OriginalSize(root, "width")), AxisScale(height, OriginalSize(root, "height")))
  }

  datatype KonvaShape =
    | KLine(key: string, points: seq<Num>, stroke: string, strokeWidth: real)
    | KRect(key: string, x: Num, y: Num, width: Num, height: Num, stroke: string, strokeWidth: real, fill: Option<string>)
    | KCircle(key: string, x: Num, y: Num, radius: Num, stroke: string, strokeWidth: real, fill: Option<string>)
    | KEllipse(key: string, x: Num, y: Num, radiusX: Num, radiusY: Num, stroke: string, strokeWidth: real, fill: Option<string>)
    | KPath(key: string, data: string, scaleX: real, scaleY: real, stroke: string, strokeWidth: real, fill: Option<string>)

  /** The element kinds that are converted, in the order they are collected. */
  const ShapeTags: seq<string> := ["line", "rect", "circle", "ellipse", "path"]

  /** The element tag a shape was made from. */
  function TagOf(s: KonvaShape): string
  {
    match s
    case KLine(_, _, _, _) => "line"
    case KRect(_, _, _, _, _, _, _, _) => "rect"
    case KCircle(_, _, _, _, _, _, _) => "circle"
    case KEllipse(_, _, _, _, _, _, _, _) => "ellipse"
    case KPath(_, _, _, _, _, _, _) => "path"
  }

  /** Position of a tag in the collection order. */
  function Rank(tag: string): nat
  {
    if tag == "line" then 0 else if tag == "rect" then 1 else if tag == "circle" then 2
    else if tag == "ellipse" then 3 else 4
  }

  /** The shape one element becomes. */
  function MakeShape(el: SvgElement, tag: string, key: string, sc: Scale): (s: KonvaShape)
    requires tag in ShapeTags
    ensures TagOf(s) == tag && s.key == key
    ensures s.stroke == ParseColor(TextAttr(el, "stroke")) && s.strokeWidth == StrokeWidth(el)
  {
    var stroke := ParseColor(TextAttr(el, "stroke"));
    var sw := StrokeWidth(el);
    if tag == "line" then
      KLine(key, [Times(NumberAttr(el, "x1"), sc.x), Times(NumberAttr(el, "y1"), sc.y),
                  Times(NumberAttr(el, "x2"), sc.x), Times(NumberAttr(el, "y2"), sc.y)], stroke, sw)
    else if tag == "rect" then
      KRect(key, Times(NumberAttr(el, "x"), sc.x), Times(NumberAttr(el, "y"), sc.y),
            Times(NumberAttr(el, "width"), sc.x), Times(NumberAttr(el, "height"), sc.y), stroke, sw, Fill(el))
    else if tag == "circle" then
      KCircle(key, Times(NumberAttr(el, "cx"), sc.x), Times(NumberAttr(el, "cy"), sc.y),
              Times(NumberAttr(el, "r"), if sc.x <= sc.y then sc.y else sc.x), stroke, sw, Fill(el))
    else if tag == "ellipse" then
      KEllipse(key, Times(NumberAttr(el, "cx"), sc.x), Times(NumberAttr(el, "cy"), sc.y),
               Times(NumberAttr(el, "rx"), sc.x), Times(NumberAttr(el, "ry"), sc.y), stroke, sw, Fill(el))
    else
      var d := TextAttr(el, "d");
      KPath(key, if d.Some? && d.value != "" then d.value else "", sc.x, sc.y, stroke, sw, Fill(el))
  }

  /** Number of elements with the given tag. */
  function CountTag(els: seq<SvgElement>, tag: string): (n: nat)
    ensures n <= |els|
  {
    if els == [] then 0
    else CountTag(els[..|els| - 1], tag) + (if els[|els| - 1].tag == tag then 1 else 0)
  }

  /** The test `querySelectorAll(tag)` applies to an element. */
  function HasTag(tag: string): SvgElement -> bool
  {
    (el: SvgElement) => el.tag == tag
  }

  /** The elements with the given tag, in document order (`querySelectorAll`). */
  function Matching(els: seq<SvgElement>, tag: string): (m: seq<SvgElement>)
    ensures |m| == CountTag(els, tag)
    ensures forall k :: 0 <= k < |m| ==> m[k].tag == tag && m[k] in els
  {
    if els == [] then []
    else Matching(els[..|els| - 1], tag) + (if els[|els| - 1].tag == tag then [els[|els| - 1]] else [])
  }

  /** `querySelectorAll` keeps every element with the tag, each in the order of
      the document: it is the order-preserving filter by tag. */
  lemma {:induction false} MatchingInDocumentOrder(els: seq<SvgElement>, tag: string)
    ensures Matching(els, tag) == Filter(els, HasTag(tag))
    ensures Sublist(Matching(els, tag), els)
    ensures forall i :: 0 <= i < |els| && els[i].tag == tag ==> els[i] in Matching(els, tag)
    decreases |els|
  {
    if els != [] {
      var init := els[..|els| - 1];
      var last := els[|els| - 1];
      assert els == init + [last];
      MatchingInDocumentOrder(init, tag);
      FilterSnoc(init, last, HasTag(tag));
    }
    FilterIsSublist(els, HasTag(tag));
  }

  /** What one `forEach` loop pushes: one shape per element with the tag, keyed
      with the running counter, which starts at `start`. */
  function ShapesOfTag(els: seq<SvgElement>, tag: string, prefix: string, sc: Scale, start: nat): seq<KonvaShape>
    requires tag in ShapeTags
  {
    if els == [] then []
    else
      var init := els[..|els| - 1];
      var last := els[|els| - 1];
      ShapesOfTag(init, tag, prefix, sc, start)
        + (if last.tag == tag then [MakeShape(last, tag, prefix + tag + NatToString(start + CountTag(init, tag)), sc)] else [])
  }

  /** `parseSvgToKonvaShapes`, as the five loops produce it: lines, rectangles,
      circles, ellipses, paths, the counter running on across the loops. */
  function KonvaShapes(doc: seq<SvgElement>, prefix: string, width: Option<real>, height: Option<real>): seq<KonvaShape>
  {
    var sc := ScaleOf(doc, width, height);
    var c0 := 0;
    var c1 := c0 + CountTag(doc, "line");
    var c2 := c1 + CountTag(doc, "rect");
    var c3 := c2 + CountTag(doc, "circle");
    var c4 := c3 + CountTag(doc, "ellipse");
    ShapesOfTag(doc, "line", prefix, sc, c0) + ShapesOfTag(doc, "rect", prefix, sc, c1)
      + ShapesOfTag(doc, "circle", prefix, sc, c2) + ShapesOfTag(doc, "ellipse", prefix, sc, c3)
      + ShapesOfTag(doc, "path", prefix, sc, c4)
  }

  /** One `forEach` loop: pushes the shapes of one tag and advances the counter. */
  method PushShapes(doc: seq<SvgElement>, tag: string, prefix: string, sc: Scale, shapes0: seq<KonvaShape>, key0: nat)
    returns (shapes: seq<KonvaShape>, key: nat)
    requires tag in ShapeTags
    ensures shapes == shapes0 + ShapesOfTag(doc, tag, prefix, sc, key0)
    ensures key == key0 + CountTag(doc, tag)
  {
    shapes, key := shapes0, key0;
    var i := 0;
    while i < |doc|
      invariant 0 <= i <= |doc|
      invariant shapes == shapes0 + ShapesOfTag(doc[..i], tag, prefix, sc, key0)
      invariant key == key0 + CountTag(doc[..i], tag)
    {
      assert doc[..i + 1][..i] == doc[..i];
      if doc[i].tag == tag {
        shapes := shapes + [MakeShape(doc[i], tag, prefix + tag + NatToString(key), sc)];
        key := key + 1;
      }
      i := i + 1;
    }
    assert doc[..|doc|] == doc;
  }

  /** `parseSvgToKonvaShapes` (the returned Konva group holds these shapes). */
  method ParseSvgToKonvaShapes(doc: seq<SvgElement>, keyPrefix: string, width: Option<real>, height: Option<real>)
    returns (shapes: seq<KonvaShape>)
    ensures shapes == KonvaShapes(doc, keyPrefix, width, height)
  {
    var sc := ScaleOf(doc, width, height);
    var key: nat := 0;
    shapes := [];
    shapes, key := PushShapes(doc, "line", keyPrefix, sc, shapes, key);
    shapes, key := PushShapes(doc, "rect", keyPrefix, sc, shapes, key);
    shapes, key := PushShapes(doc, "circle", keyPrefix, sc, shapes, key);
    shapes, key := PushShapes(doc, "ellipse", keyPrefix, sc, shapes, key);
    shapes, key := PushShapes(doc, "path", keyPrefix, sc, shapes, key);
  }

  // ---------------------------------------------------------------------------
  // Properties of the conversion

  /** The k-th shape of one loop is made from the k-th element with that tag,
      and its key holds the counter value `start + k`. */
  lemma {:induction false} ShapesOfTagAt(els: seq<SvgElement>, tag: string, prefix: string, sc: Scale, start: nat)
    requires tag in ShapeTags
    ensures |ShapesOfTag(els, tag, prefix, sc, start)| == CountTag(els, tag)
    ensures forall k :: 0 <= k < CountTag(els, tag) ==>
      ShapesOfTag(els, tag, prefix, sc, start)[k]
        == MakeShape(Matching(els, tag)[k], tag, prefix + tag + NatToString(start + k), sc)
    decreases |els|
  {
    if els != [] {
      ShapesOfTagAt(els[..|els| - 1], tag, prefix, sc, start);
    }
  }

  /** The shapes of one loop, keyed with counter values from `start` on. */
  predicate KeyedFrom(a: seq<KonvaShape>, prefix: string, tag: string, start: nat)
  {
    forall k :: 0 <= k < |a| ==> TagOf(a[k]) == tag && a[k].key == prefix + tag + NatToString(start + k)
  }

  /** Every shape is keyed with its own index. */
  predicate KeyedByIndex(s: seq<KonvaShape>, prefix: string)
  {
    forall i :: 0 <= i < |s| ==> TagOf(s[i]) in ShapeTags && s[i].key == prefix + TagOf(s[i]) + NatToString(i)
  }

  lemma ShapesOfTagKeyed(els: seq<SvgElement>, tag: string, prefix: string, sc: Scale, start: nat)
    requires tag in ShapeTags
    ensures |ShapesOfTag(els, tag, prefix, sc, start)| == CountTag(els, tag)
    ensures KeyedFrom(ShapesOfTag(els, tag, prefix, sc, start), prefix, tag, start)
  {
    ShapesOfTagAt(els, tag, prefix, sc, start);
  }

  lemma AppendKeyed(s: seq<KonvaShape>, a: seq<KonvaShape>, prefix: string, tag: string)
    requires tag in ShapeTags
    requires KeyedByIndex(s, prefix) && KeyedFrom(a, prefix, tag, |s|)
    ensures KeyedByIndex(s + a, prefix)
  {
    forall i | 0 <= i < |s + a|
      ensures TagOf((s + a)[i]) in ShapeTags && (s + a)[i].key == prefix + TagOf((s + a)[i]) + NatToString(i)
    {
      if i >= |s| {
        assert (s + a)[i] == a[i - |s|];
      }
    }
  }

  lemma ConcatKeyed(a: seq<KonvaShape>, b: seq<KonvaShape>, c: seq<KonvaShape>, d: seq<KonvaShape>, e: seq<KonvaShape>,
                     prefix: string, n1: nat, n2: nat, n3: nat, n4: nat, s: seq<KonvaShape>)
    requires s == a + b + c + d + e
    requires n1 == |a| && n2 == n1 + |b| && n3 == n2 + |c| && n4 == n3 + |d|
    requires KeyedFrom(a, prefix, "line", 0) && KeyedFrom(b, prefix, "rect", n1) && KeyedFrom(c, prefix, "circle", n2)
    requires KeyedFrom(d, prefix, "ellipse", n3) && KeyedFrom(e, prefix, "path", n4)
    ensures KeyedByIndex(s, prefix)
  {
    assert KeyedByIndex([], prefix);
    AppendKeyed([], a, prefix, "line");
    assert [] + a == a;
    AppendKeyed(a, b, prefix, "rect");
    AppendKeyed(a + b, c, prefix, "circle");
    AppendKeyed(a + b + c, d, prefix, "ellipse");
    AppendKeyed(a + b + c + d, e, prefix, "path");
  }

  /** Shape i of the whole conversion was made from an element of its own tag and
      is keyed with counter value i; there is one shape per converted element. */
  lemma KeysFollowCounter(doc: seq<SvgElement>, prefix: string, width: Option<real>, height: Option<real>)
    ensures |KonvaShapes(doc, prefix, width, height)|
      == CountTag(doc, "line") + CountTag(doc, "rect") + CountTag(doc, "circle")
         + CountTag(doc, "ellipse") + CountTag(doc, "path")
    ensures KeyedByIndex(KonvaShapes(doc, prefix, width, height), prefix)
  {
    var sc := ScaleOf(doc, width, height);
    var c1 := CountTag(doc, "line");
    var c2 := c1 + CountTag(doc, "rect");
    var c3 := c2 + CountTag(doc, "circle");
    var c4 := c3 + CountTag(doc, "ellipse");
    var a := ShapesOfTag(doc, "line", prefix, sc, 0);
    var b := ShapesOfTag(doc, "rect", prefix, sc, c1);
    var c := ShapesOfTag(doc, "circle", prefix, sc, c2);
    var d := ShapesOfTag(doc, "ellipse", prefix, sc, c3);
    var e := ShapesOfTag(doc, "path", prefix, sc, c4);
    var s := KonvaShapes(doc, prefix, width, height);
    assert s == a + b + c + d + e;
    ShapesOfTagKeyed(doc, "line", prefix, sc, 0);
    ShapesOfTagKeyed(doc, "rect", prefix, sc, c1);
    ShapesOfTagKeyed(doc, "circle", prefix, sc, c2);
    ShapesOfTagKeyed(doc, "ellipse", prefix, sc, c3);
    ShapesOfTagKeyed(doc, "path", prefix, sc, c4);
    ConcatKeyed(a, b, c, d, e, prefix, c1, c2, c3, c4, s);
  }

  /** Two keys built from one prefix, a shape tag and a counter are equal only
      when the tags and the counters are. */
  lemma KeyInjective(prefix: string, t1: string, n1: nat, t2: string, n2: nat)
    requires t1 in ShapeTags && t2 in ShapeTags
    requires prefix + t1 + NatToString(n1) == prefix + t2 + NatToString(n2)
    ensures t1 == t2 && n1 == n2
  {
    var k1 := prefix + t1 + NatToString(n1);
    var k2 := prefix + t2 + NatToString(n2);
    assert k1[|prefix|] == t1[0] && k2[|prefix|] == t2[0];
    assert t1 == t2;
    assert NatToString(n1) == k1[|prefix| + |t1|..] == k2[|prefix| + |t2|..] == NatToString(n2);
    NatToStringInjective(n1, n2);
  }

  /** The React keys of the produced shapes are pairwise distinct. */
  lemma KeysDistinct(doc: seq<SvgElement>, prefix: string, width: Option<real>, height: Option<real>)
    ensures var shapes := KonvaShapes(doc, prefix, width, height);
      forall i, j :: 0 <= i < j < |shapes| ==> shapes[i].key != shapes[j].key
  {
    var shapes := KonvaShapes(doc, prefix, width, height);
    KeysFollowCounter(doc, prefix, width, height);
    forall i, j | 0 <= i < j < |shapes|
      ensures shapes[i].key != shapes[j].key
    {
      if shapes[i].key == shapes[j].key {
        KeyInjective(prefix, TagOf(shapes[i]), i, TagOf(shapes[j]), j);
      }
    }
  }

  /** The shapes are ordered by the rank of their tag. */
  predicate RankOrdered(s: seq<KonvaShape>)
  {
    forall i, j :: 0 <= i < j < |s| ==> Rank(TagOf(s[i])) <= Rank(TagOf(s[j]))
  }

  lemma AppendRanked(s: seq<KonvaShape>, a: seq<KonvaShape>, tag: string)
    requires RankOrdered(s) && (forall i :: 0 <= i < |s| ==> Rank(TagOf(s[i])) <= Rank(tag))
    requires forall k :: 0 <= k < |a| ==> TagOf(a[k]) == tag
    ensures RankOrdered(s + a) && forall i :: 0 <= i < |s + a| ==> Rank(TagOf((s + a)[i])) <= Rank(tag)
  {
    forall i | 0 <= i < |s + a|
      ensures Rank(TagOf((s + a)[i])) <= Rank(tag)
      ensures i >= |s| ==> TagOf((s + a)[i]) == tag
    {
      if i >= |s| {
        assert (s + a)[i] == a[i - |s|];
      }
    }
  }

  lemma ConcatRanked(a: seq<KonvaShape>, b: seq<KonvaShape>, c: seq<KonvaShape>, d: seq<KonvaShape>, e: seq<KonvaShape>,
                     prefix: string, n1: nat, n2: nat, n3: nat, n4: nat, s: seq<KonvaShape>)
    requires s == a + b + c + d + e
    requires n1 == |a| && n2 == n1 + |b| && n3 == n2 + |c| && n4 == n3 + |d|
    requires KeyedFrom(a, prefix, "line", 0) && KeyedFrom(b, prefix, "rect", n1) && KeyedFrom(c, prefix, "circle", n2)
    requires KeyedFrom(d, prefix, "ellipse", n3) && KeyedFrom(e, prefix, "path", n4)
    ensures RankOrdered(s)
  {
    AppendRanked([], a, "line");
    assert [] + a == a;
    AppendRanked(a, b, "rect");
    AppendRanked(a + b, c, "circle");
    AppendRanked(a + b + c, d, "ellipse");
    AppendRanked(a + b + c + d, e, "path");
  }

  /** All lines come first, then rectangles, circles, ellipses and paths. */
  lemma ShapesGroupedByTag(doc: seq<SvgElement>, prefix: string, width: Option<real>, height: Option<real>)
    ensures RankOrdered(KonvaShapes(doc, prefix, width, height))
  {
    var sc := ScaleOf(doc, width, height);
    var c1 := CountTag(doc, "line");
    var c2 := c1 + CountTag(doc, "rect");
    var c3 := c2 + CountTag(doc, "circle");
    var c4 := c3 + CountTag(doc, "ellipse");
    ShapesOfTagKeyed(doc, "line", prefix, sc, 0);
    ShapesOfTagKeyed(doc, "rect", prefix, sc, c1);
    ShapesOfTagKeyed(doc, "circle", prefix, sc, c2);
    ShapesOfTagKeyed(doc, "ellipse", prefix, sc, c3);
    ShapesOfTagKeyed(doc, "path", prefix, sc, c4);
    var a := ShapesOfTag(doc, "line", prefix, sc, 0);
    var b := ShapesOfTag(doc, "rect", prefix, sc, c1);
    var c := ShapesOfTag(doc, "circle", prefix, sc, c2);
    var d := ShapesOfTag(doc, "ellipse", prefix, sc, c3);
    var e := ShapesOfTag(doc, "path", prefix, sc, c4);
    ConcatRanked(a, b, c, d, e, prefix, c1, c2, c3, c4, KonvaShapes(doc, prefix, width, height));
  }

  /** Attribute defaults and scaling of one converted element. */
  lemma MakeShapeGeometry(el: SvgElement, tag: string, key: string, sc: Scale)
    requires tag in ShapeTags
    ensures var s := MakeShape(el, tag, key, sc);
      && (TextAttr(el, "stroke").None? ==> s.stroke == "#000")
      && ("stroke-width" !in el.attributes ==> s.strokeWidth == 2.0)
      && (tag == "line" ==> s.points == [Times(NumberAttr(el, "x1"), sc.x), Times(NumberAttr(el, "y1"), sc.y),
                                         Times(NumberAttr(el, "x2"), sc.x), Times(NumberAttr(el, "y2"), sc.y)])
      && (tag == "rect" ==> s.x == Times(NumberAttr(el, "x"), sc.x) && s.y == Times(NumberAttr(el, "y"), sc.y)
                            && s.width == Times(NumberAttr(el, "width"), sc.x) && s.height == Times(NumberAttr(el, "height"), sc.y))
      && (tag == "circle" ==> s.x == Times(NumberAttr(el, "cx"), sc.x) && s.y == Times(NumberAttr(el, "cy"), sc.y)
                              && s.radius == Times(NumberAttr(el, "r"), Fabric.Max(sc.x, sc.y)))
      && (tag == "ellipse" ==> s.x == Times(NumberAttr(el, "cx"), sc.x) && s.y == Times(NumberAttr(el, "cy"), sc.y)
                               && s.radiusX == Times(NumberAttr(el, "rx"), sc.x) && s.radiusY == Times(NumberAttr(el, "ry"), sc.y))
      && (tag != "line" ==> s.fill == Fill(el))
      && (tag == "path" ==> ("d" !in el.attributes ==> s.data == "") && s.scaleX == sc.x && s.scaleY == sc.y)
  {
  }

  /** Without a target size the scale is 1 on both axes; a root without a usable
      size is taken as 50 by 50. */
  lemma ScaleDefaults(doc: seq<SvgElement>, width: Option<real>, height: Option<real>)
    ensures width.None? ==> ScaleOf(doc, width, height).x == 1.0
    ensures height.None? ==> ScaleOf(doc, width, height).y == 1.0
    ensures SvgRoot(doc).None? && width.Some? && width.value != 0.0 ==> ScaleOf(doc, width, height).x == width.value / 50.0
  {
  }
}
