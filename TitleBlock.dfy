/** The title block drawn on the sheet (src/components/Canvas/TitleBlock.tsx):
    its column offsets, its placement inside the margin, its separators and the
    placeholder each value slot shows when its field is empty. */
module TitleBlock {
  import opened CanvasTypes
  import opened GridUtils
  import Text
  import TitleBlockPanel

  const TITLE_BLOCK_WIDTH: int := 340
  const TITLE_BLOCK_HEIGHT: int := 80
  const ROW_HEIGHT: int := TITLE_BLOCK_HEIGHT / 2
  /** Logo, organisation/name, project/title, date/scale, page. */
  const COLS: seq<int> := [56, 80, 90, 56, 58]

  /** The sum of a sequence of widths. */
  function Sum(s: seq<int>): int
  {
    if s == [] then 0 else Sum(s[..|s| - 1]) + s[|s| - 1]
  }

  /** The left edge of each column: the widths of the columns before it. */
  function Offsets(cols: seq<int>): seq<int>
  {
    seq(|cols|, i requires 0 <= i < |cols| => Sum(cols[..i]))
  }

  /** The `reduce` that builds COL_X: each step pushes the previous offset plus
      the previous width, with `|| 0` standing in for the missing entries at i = 0. */
  method ColumnOffsets(cols: seq<int>) returns (colX: seq<int>)
    ensures colX == Offsets(cols)
  {
    colX := [];
    var i := 0;
    while i < |cols|
      invariant 0 <= i <= |cols|
      invariant colX == Offsets(cols[..i])
    {
      var prev := if i == 0 then 0 else colX[i - 1];
      var w := if i == 0 then 0 else cols[i - 1];
      if i > 0 {
        assert cols[..i][..i - 1] == cols[..i - 1];
        assert prev == Sum(cols[..i - 1]);
      }
      assert prev + w == Sum(cols[..i]);
      ghost var next := Offsets(cols[..i + 1]);
      assert forall k :: 0 <= k < i ==> next[k] == Sum(cols[..k]) == colX[k] by {
        forall k | 0 <= k < i
          ensures next[k] == Sum(cols[..k]) == colX[k]
        {
          assert cols[..i + 1][..k] == cols[..k];
          assert cols[..i][..k] == cols[..k];
        }
      }
      assert cols[..i + 1][..i] == cols[..i];
      assert next[i] == prev + w;
      colX := colX + [prev + w];
      assert colX == next;
      i := i + 1;
    }
    assert cols[..|cols|] == cols;
  }

  /** The offsets start at 0, each is the previous plus the previous width,
      and there is one per column. */
  lemma OffsetsRecurrence(cols: seq<int>, i: nat)
    requires 0 < i < |cols|
    ensures |Offsets(cols)| == |cols| && Offsets(cols)[0] == 0
    ensures Offsets(cols)[i] == Offsets(cols)[i - 1] + cols[i - 1]
  {
    assert cols[..i][..i - 1] == cols[..i - 1];
  }

  /** COL_X is [0, 56, 136, 226, 282]; the widths sum to the block width, so
      the last column ends at the block's right edge. */
  lemma ColumnLayout()
    ensures Offsets(COLS) == [0, 56, 136, 226, 282]
    ensures Sum(COLS) == TITLE_BLOCK_WIDTH
    ensures Offsets(COLS)[4] + COLS[4] == TITLE_BLOCK_WIDTH
  {
    assert Sum(COLS[..0]) == 0;
    assert COLS[..1][..0] == COLS[..0];
    assert Sum(COLS[..1]) == 56;
    assert COLS[..2][..1] == COLS[..1];
    assert Sum(COLS[..2]) == 136;
    assert COLS[..3][..2] == COLS[..2];
    assert Sum(COLS[..3]) == 226;
    assert COLS[..4][..3] == COLS[..3];
    assert Sum(COLS[..4]) == 282;
    assert COLS[..4] == COLS[..|COLS| - 1];
  }

  /** The block's top-left corner on the sheet. */
  function Placement(sheet: Sheet): (p: (int, int))
    ensures p.0 + TITLE_BLOCK_WIDTH == sheet.width - MARGIN_PX
    ensures p.1 + TITLE_BLOCK_HEIGHT == sheet.height - MARGIN_PX
  {
    (sheet.width - MARGIN_PX - TITLE_BLOCK_WIDTH, sheet.height - MARGIN_PX - TITLE_BLOCK_HEIGHT)
  }

  /** On A3 the block sits at (780, 480), its right and bottom edges one margin
      inside the paper; two rows of 40 fill its height. */
  lemma PlacementOnA3()
    ensures Placement(PAPER_A3) == (780, 480)
    ensures 780 + TITLE_BLOCK_WIDTH == PAPER_A3.width - 40 && 480 + TITLE_BLOCK_HEIGHT == PAPER_A3.height - 40
    ensures ROW_HEIGHT == 40 && 2 * ROW_HEIGHT == TITLE_BLOCK_HEIGHT
  {
  }

  /** A separator rectangle of the block. */
  datatype Separator = Separator(key: string, x: real, y: real, width: real, height: real)

  /** `COL_X.slice(1).map(...)`: one full-height vertical separator per column
      edge after the first, keyed by its position in the slice. */
  function VerticalSeparators(colX: seq<int>): (r: seq<Separator>)
    requires |colX| >= 1
    ensures |r| == |colX| - 1
    ensures forall i :: 0 <= i < |r| ==>
              (r[i].x == colX[i + 1] as real && r[i].y == 0.0 && r[i].height == TITLE_BLOCK_HEIGHT as real)
  {
    var tail := colX[1..];
    seq(|tail|, i requires 0 <= i < |tail| =>
      Separator("vline-" + Text.NatToString(i), tail[i] as real, 0.0, 0.5, TITLE_BLOCK_HEIGHT as real))
  }

  /** The separator between the rows, across the whole block. */
  const RowSeparator: Separator := Separator("", 0.0, ROW_HEIGHT as real, TITLE_BLOCK_WIDTH as real, 0.5)

  /** There are exactly four vertical separators, at 56, 136, 226 and 282, and
      none at the block's left edge. */
  lemma FourSeparators()
    ensures |VerticalSeparators(Offsets(COLS))| == 4
    ensures forall i :: 0 <= i < 4 ==> VerticalSeparators(Offsets(COLS))[i].x > 0.0
    ensures VerticalSeparators(Offsets(COLS))[0].x == 56.0 && VerticalSeparators(Offsets(COLS))[3].x == 282.0
  {
    ColumnLayout();
  }

  /** `value || placeholder`: an unset or empty field shows the placeholder. */
  function Shown(data: TitleBlockData, name: string, placeholder: string): (s: string)
    ensures name in data && data[name] != "" ==> s == data[name]
    ensures (name !in data || data[name] == "") ==> s == placeholder
  {
    if name in data && data[name] != "" then data[name] else placeholder
  }

  /** The eight value slots, top row then bottom row, left to right. */
  function ValueTexts(data: TitleBlockData): (r: seq<string>)
    ensures |r| == 8 && r[3] == "1 / 1"
    ensures r[5] == Shown(data, "ecsaNumber", "<Title>")
    ensures r[7] == Shown(data, "revision", "A")
  {
    [Shown(data, "company", "<Org>"), Shown(data, "project", "<Project>"),
     Shown(data, "date", "09/07/2025"), "1 / 1",
     Shown(data, "designer", "<Name>"), Shown(data, "ecsaNumber", "<Title>"),
     Shown(data, "scale", "1:1"), Shown(data, "revision", "A")]
  }

  /** The initial record shows every placeholder. */
  lemma InitialShowsPlaceholders()
    ensures ValueTexts(InitialTitleBlock) ==
      ["<Org>", "<Project>", "09/07/2025", "1 / 1", "<Name>", "<Title>", "1:1", "A"]
  {
  }

  /** A sequence of form edits, each through the panel's `handleChange`. */
  function ApplyEdits(data: TitleBlockData, edits: seq<(string, string)>): TitleBlockData
    decreases |edits|
  {
    if edits == [] then data
    else ApplyEdits(TitleBlockPanel.HandleChange(data, edits[0].0, edits[0].1), edits[1..])
  }

  predicate IsFormField(name: string)
  {
    exists i :: 0 <= i < |TitleBlockPanel.Fields| && TitleBlockPanel.Fields[i].name == name
  }

  /** The title slot reads `ecsaNumber`, which neither the initial record nor
      any form field sets, so whatever is typed into the form it shows '<Title>'.
      The revision slot reads `revision`, which is likewise never set, so it
      always shows 'A'. */
  lemma {:induction false} TitleSlotAlwaysPlaceholder(data: TitleBlockData, edits: seq<(string, string)>)
    requires "ecsaNumber" !in data && "revision" !in data
    requires forall k :: 0 <= k < |edits| ==> IsFormField(edits[k].0)
    ensures "ecsaNumber" !in ApplyEdits(data, edits) && "revision" !in ApplyEdits(data, edits)
    ensures ValueTexts(ApplyEdits(data, edits))[5] == "<Title>"
    ensures ValueTexts(ApplyEdits(data, edits))[7] == "A"
    decreases |edits|
  {
    if edits != [] {
      var e := edits[0];
      var i :| 0 <= i < |TitleBlockPanel.Fields| && TitleBlockPanel.Fields[i].name == e.0;
      assert e.0 != "ecsaNumber" && e.0 != "revision";
      var next := TitleBlockPanel.HandleChange(data, e.0, e.1);
      assert forall k :: 0 <= k < |edits[1..]| ==> edits[1..][k] == edits[k + 1];
      TitleSlotAlwaysPlaceholder(next, edits[1..]);
    }
  }

  /** In particular, from the initial record. */
  lemma {:induction false} InitialTitleSlot(edits: seq<(string, string)>)
    requires forall k :: 0 <= k < |edits| ==> IsFormField(edits[k].0)
    ensures ValueTexts(ApplyEdits(InitialTitleBlock, edits))[5] == "<Title>"
    ensures ValueTexts(ApplyEdits(InitialTitleBlock, edits))[7] == "A"
  {
    TitleSlotAlwaysPlaceholder(InitialTitleBlock, edits);
  }

  /** The value slots with the title slot reading the form's `drawingTitle`
      field, the one both the form and the block caption "Drawing Title(s)";
      every other slot is as drawn. */
  function IntendedValueTexts(data: TitleBlockData): (r: seq<string>)
    ensures |r| == 8
    ensures forall i :: 0 <= i < 8 && i != 5 ==> r[i] == ValueTexts(data)[i]
    ensures r[5] == Shown(data, "drawingTitle", "<Title>")
  {
    ValueTexts(data)[5 := Shown(data, "drawingTitle", "<Title>")]
  }

  /** An edit made after a sequence of edits is applied last. */
  lemma {:induction false} ApplyEditsSnoc(data: TitleBlockData, edits: seq<(string, string)>, e: (string, string))
    ensures ApplyEdits(data, edits + [e]) == TitleBlockPanel.HandleChange(ApplyEdits(data, edits), e.0, e.1)
    decreases |edits|
  {
    if edits != [] {
      assert (edits + [e])[1..] == edits[1..] + [e];
      ApplyEditsSnoc(TitleBlockPanel.HandleChange(data, edits[0].0, edits[0].1), edits[1..], e);
    }
  }

  /** With the intended slot, whatever was typed last into the drawing-title
      field is what the block shows. */
  lemma TypedTitleIsShown(data: TitleBlockData, edits: seq<(string, string)>, title: string)
    requires title != ""
    ensures IntendedValueTexts(ApplyEdits(data, edits + [("drawingTitle", title)]))[5] == title
  {
    ApplyEditsSnoc(data, edits, ("drawingTitle", title));
  }
}
