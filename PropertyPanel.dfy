/** The property form (src/components/Toolbar/PropertyPanel.tsx): which element
    the form edits, what it shows, and the element-list update a field edit makes. */
module PropertyPanel {
  import opened CanvasTypes
  import opened Lists

  /** The test `el => el.id === id`. */
  function HasId(id: string): CanvasElement -> bool
  {
    (el: CanvasElement) => el.id == id
  }

  /** `elements.find(el => el.id === id)`. */
  function FindElement(elements: seq<CanvasElement>, id: string): Option<CanvasElement>
  {
    Find(elements, HasId(id))
  }

  /** What the panel renders: the prompt, nothing, or a form with one field per
      property key (and the "No editable properties" note when there is none). */
  datatype PanelView =
    | Prompt
    | Nothing
    | Editor(element: CanvasElement, fields: set<string>, noPropertiesNote: bool)

  function View(selected: seq<string>, elements: seq<CanvasElement>): (r: PanelView)
    ensures r.Prompt? <==> selected == []
    ensures r.Nothing? <==> selected != [] && FindElement(elements, selected[0]).None?
    ensures r.Editor? ==> r.element == FindElement(elements, selected[0]).value && r.element.id == selected[0]
    ensures r.Editor? ==> r.fields == r.element.properties.Keys
    ensures r.Editor? ==> (r.noPropertiesNote <==> |r.element.properties| == 0)
  {
    if selected == [] then Prompt
    else
      match FindElement(elements, selected[0])
      case None => Nothing
      case Some(el) => Editor(el, el.properties.Keys, |el.properties| == 0)
  }

  /** `handleChange`'s updater: every element with the edited element's id gets
      `properties[name] = value`; nothing else changes. */
  function HandleChange(elements: seq<CanvasElement>, id: string, name: string, value: string): (r: seq<CanvasElement>)
    ensures |r| == |elements|
    ensures forall k :: 0 <= k < |r| && elements[k].id != id ==> r[k] == elements[k]
    ensures forall k :: 0 <= k < |r| && elements[k].id == id ==>
      r[k] == elements[k].(properties := r[k].properties)
      && name in r[k].properties && r[k].properties[name] == value
      && (forall key :: key in elements[k].properties && key != name ==> key in r[k].properties && r[k].properties[key] == elements[k].properties[key])
      && r[k].properties.Keys == elements[k].properties.Keys + {name}
  {
    seq(|elements|, k requires 0 <= k < |elements| =>
      if elements[k].id == id then elements[k].(properties := elements[k].properties[name := value]) else elements[k])
  }

  /** Making the same edit twice is making it once. */
  lemma HandleChangeIdempotent(elements: seq<CanvasElement>, id: string, name: string, value: string)
    ensures HandleChange(HandleChange(elements, id, name, value), id, name, value) == HandleChange(elements, id, name, value)
  {
    var once := HandleChange(elements, id, name, value);
    var twice := HandleChange(once, id, name, value);
    forall k | 0 <= k < |elements|
      ensures twice[k] == once[k]
    {
      if elements[k].id == id {
        assert once[k].properties[name := value] == once[k].properties;
      }
    }
  }

  /** After an edit of the element on show, the form shows the new value and the
      element keeps its place in the selection. */
  lemma EditIsShown(selected: seq<string>, elements: seq<CanvasElement>, name: string, value: string)
    requires View(selected, elements).Editor?
    ensures var after := View(selected, HandleChange(elements, selected[0], name, value));
      after.Editor? && name in after.fields && after.element.properties[name] == value
      && after.element == View(selected, elements).element.(properties := after.element.properties)
  {
    var id := selected[0];
    var r := HandleChange(elements, id, name, value);
    var el := FindElement(elements, id).value;
    var i :| 0 <= i < |elements| && elements[i] == el && el.id == id && forall j :: 0 <= j < i ==> elements[j].id != id;
    assert r[i].id == id;
    assert forall j :: 0 <= j < i ==> r[j].id != id;
    FindFirst(r, HasId(id), i);
  }
}
