/** The content block's layout classes: a grid chosen by the number of columns, and a column
    span by each column's size. */
module Content {
  import opened Strings
  import opened PayloadTypes

  const SingleColumn := "max-w-4xl mx-auto"
  const GridPrefix := "grid "
  const TwoColumnGrid := GridPrefix + "grid-cols-1 lg:grid-cols-2 gap-12 lg:gap-16"
  const ThreeColumnGrid := GridPrefix + "grid-cols-1 md:grid-cols-2 lg:grid-cols-3 gap-8 lg:gap-12"
  const FourColumnGrid := GridPrefix + "grid-cols-1 md:grid-cols-2 lg:grid-cols-4 gap-6 lg:gap-8"

  /** `getGridClasses()`: nothing without columns, a centred single column, and a grid of two,
      three or (for any other count, none included) four columns. */
  function GridClasses(content: ContentBlock): (r: string)
    ensures content.columns.None? ==> r == ""
    ensures content.columns.Some? && |content.columns.value| == 1 ==> r == SingleColumn
    ensures content.columns.Some? && |content.columns.value| == 2 ==> r == TwoColumnGrid
    ensures content.columns.Some? && |content.columns.value| == 3 ==> r == ThreeColumnGrid
    ensures content.columns.Some? && (|content.columns.value| == 0 || |content.columns.value| >= 4) ==>
              r == FourColumnGrid
    ensures StartsWith(r, GridPrefix) <==> content.columns.Some? && |content.columns.value| != 1
  {
    if content.columns.None? then ""
    else
      var n := |content.columns.value|;
      assert SingleColumn[0] != GridPrefix[0];
      if n == 1 then SingleColumn
      else if n == 2 then TwoColumnGrid
      else if n == 3 then ThreeColumnGrid
      else FourColumnGrid
  }

  /** `column.size || 'full'`, as the template passes it. */
  function ColumnSize(column: ContentColumn): (s: string)
    ensures s != ""
    ensures column.size != "" ==> s == column.size
  {
    if column.size != "" then column.size else "full"
  }

  /** The span of a size in a grid, each with the leading space of the empty base class. */
  function SizeSpan(size: string): (r: string)
    ensures r != "" <==> size == "oneThird" || size == "half" || size == "twoThirds" || size == "full"
    ensures r != "" ==> StartsWith(r, " lg:col-span-")
    ensures size == "half" || size == "twoThirds" <==> r == " lg:col-span-2"
  {
    if size == "oneThird" then " lg:col-span-1"
    else if size == "half" || size == "twoThirds" then " lg:col-span-2"
    else if size == "full" then " lg:col-span-full"
    else ""
  }

  /** `getColumnClasses(size)`: a span only inside a grid of more than one column, and only for
      one of the four sizes. */
  function ColumnClasses(content: ContentBlock, size: string): (r: string)
    ensures r != "" <==>
              content.columns.Some? && |content.columns.value| > 1 &&
              (size == "oneThird" || size == "half" || size == "twoThirds" || size == "full")
    ensures r != "" ==> StartsWith(r, " lg:col-span-") && r == SizeSpan(size)
  {
    if content.columns.Some? && |content.columns.value| > 1 then SizeSpan(size) else ""
  }

  /** A column with a missing or empty size spans the full grid width; a half and a two-thirds column span
      the same. */
  lemma ColumnDefaults(content: ContentBlock, column: ContentColumn)
    requires content.columns.Some? && |content.columns.value| > 1
    ensures column.size == "" ==> ColumnClasses(content, ColumnSize(column)) == " lg:col-span-full"
    ensures ColumnClasses(content, "half") == ColumnClasses(content, "twoThirds")
  {
  }
}
