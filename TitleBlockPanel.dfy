/** The title-block form (src/TitleBlock/TitleBlockPanel.tsx): its fields and the
    one-key update an edit makes. */
module TitleBlockPanel {
  import opened CanvasTypes

  datatype Field = Field(name: string, caption: string)

  const Fields: seq<Field> := [
    Field("company", "Organization"),
    Field("project", "Project Name"),
    Field("designer", "Name"),
    Field("date", "Date"),
    Field("scale", "Scale"),
    Field("drawingTitle", "Drawing Title(s)"),
    Field("details", "Details")]

  /** `handleChange`'s updater: field `name` becomes `value`, every other field
      is kept. */
  function HandleChange(data: TitleBlockData, name: string, value: string): (r: TitleBlockData)
    ensures name in r && r[name] == value
    ensures r.Keys == data.Keys + {name}
    ensures forall k :: k in data && k != name ==> r[k] == data[k]
  {
    data[name := value]
  }

  /** Making the same edit twice is making it once. */
  lemma HandleChangeIdempotent(data: TitleBlockData, name: string, value: string)
    ensures HandleChange(HandleChange(data, name, value), name, value) == HandleChange(data, name, value)
  {
  }

  /** The text a field shows: its value, or empty when unset (`|| ''`). */
  function ShownValue(data: TitleBlockData, name: string): (s: string)
    ensures name in data ==> s == data[name]
    ensures name !in data ==> s == ""
  {
    if name in data then data[name] else ""
  }

  /** An edited field shows what was typed. */
  lemma EditIsShown(data: TitleBlockData, name: string, value: string)
    ensures ShownValue(HandleChange(data, name, value), name) == value
  {
  }

  /** Every form field is a key of the initial record, whose values are all empty. */
  lemma FieldsAreInitialKeys()
    ensures |Fields| == 7
    ensures forall i :: 0 <= i < |Fields| ==> Fields[i].name in InitialTitleBlock && ShownValue(InitialTitleBlock, Fields[i].name) == ""
  {
  }
}
