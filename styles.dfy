/** The values `resizeStuff` writes into the page for a given mode and set
    of bounds, and the toggle button's icon text. */
module Styles {
  import opened RowBounds

  /** What `resizeStuff` sets: the `maxWidth` of each layout container, and
      the `--textarea-max-rows` and `--textarea-min-rows` properties. */
  datatype StyleValues = StyleValues(maxWidth: string, maxRows: int, minRows: int)

  /** The inline style of one input editor. */
  datatype EditorStyle = EditorStyle(maxRows: int, minHeight: string, maxHeight: string)

  /** The fewest rows the input box is ever given, whatever is stored. */
  const MinAppliedRows := 3

  const MinHeightCalc := "calc((var(--textarea-min-rows, 0)) * 24px)"
  const MaxHeightCalc := "calc((var(--textarea-max-rows, 0)) * 24px)"

  /** The maximum of the active mode. */
  function ActiveMaxRows(wide: bool, r: Rows): int
  {
    if wide then r.maxRowsWide else r.maxRowsNormal
  }

  /** The minimum of the active mode, as stored. */
  function ActiveMinRows(wide: bool, r: Rows): int
  {
    if wide then r.minRowsWide else r.minRowsNormal
  }

  function Resized(wide: bool, r: Rows): StyleValues
  {
    StyleValues(
      if wide then "100%" else "",
      ActiveMaxRows(wide, r),
      Max(MinAppliedRows, ActiveMinRows(wide, r)))
  }

  /** The style every input editor gets. */
  function EditorStyleFor(wide: bool, r: Rows): (e: EditorStyle)
    ensures e.maxRows == Resized(wide, r).maxRows
  {
    EditorStyle(ActiveMaxRows(wide, r), MinHeightCalc, MaxHeightCalc)
  }

  /** The containers' width is lifted to 100% exactly in wide mode and the
      override is cleared otherwise; the maximum rows are the active mode's
      maximum; the minimum rows are the active mode's minimum, raised to 3
      when it is smaller. */
  lemma ResizedValues(wide: bool, r: Rows)
    ensures Resized(wide, r).maxWidth == "100%" <==> wide
    ensures !wide ==> Resized(wide, r).maxWidth == ""
    ensures Resized(wide, r).maxRows == (if wide then r.maxRowsWide else r.maxRowsNormal)
    ensures Resized(wide, r).minRows >= 3
    ensures var m := if wide then r.minRowsWide else r.minRowsNormal;
            Resized(wide, r).minRows == (if m >= 3 then m else 3)
  {
  }

  /** Only the active mode's bounds matter: changing a bound of the other
      mode leaves every style value as it was. */
  lemma ResizedIgnoresInactiveMode(wide: bool, r: Rows, t: Target, v: int)
    requires if wide then t == MaxNormal || t == MinNormal else t == MaxWide || t == MinWide
    ensures Resized(wide, Set(r, t, v)) == Resized(wide, r)
  {
  }

  /** A stored minimum above 3 is applied as it is: the clamp does not
      hide a change to it. */
  lemma ResizedFollowsMinimum(wide: bool, r: Rows, t: Target)
    requires t == (if wide then MinWide else MinNormal)
    requires Get(r, t) >= 3
    ensures Resized(wide, Up(r, t)).minRows == Resized(wide, r).minRows + 1
  {
  }

  /** `'remove'` when wide mode is on, `'add'` when it is off. */
  function IconFor(wide: bool): string
  {
    if wide then "remove" else "add"
  }

  /** The icon tells the two modes apart. */
  lemma IconDistinguishesModes(wide: bool)
    ensures IconFor(wide) == "remove" <==> wide
    ensures IconFor(wide) == "add" <==> !wide
    ensures IconFor(!wide) != IconFor(wide)
  {
  }
}
