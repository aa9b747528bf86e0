/**
 * The XAML column set renderer (ColumnSet.Xaml.cs): a grid with one column
 * definition and one child per column, in column order, where each column's
 * size string decides its width.
 */
module ColumnSet {
  import opened Xaml

  // ---------------------------------------------------------------------------
  // Case-insensitive size strings
  // ---------------------------------------------------------------------------

  /** Lower-casing of one character, for the ASCII letters. */
  function ToLowerChar(c: char): char
  {
    if 'A' <= c <= 'Z' then (c as int + 32) as char else c
  }

  function ToLower(s: string): (r: string)
    ensures |r| == |s|
  {
    seq(|s|, i requires 0 <= i < |s| => ToLowerChar(s[i]))
  }

  predicate EqualsIgnoringCase(s: string, t: string)
  {
    |s| == |t| && forall i | 0 <= i < |s| :: ToLowerChar(s[i]) == ToLowerChar(t[i])
  }

  predicate IsLowerCase(s: string)
  {
    forall i | 0 <= i < |s| :: !('A' <= s[i] <= 'Z')
  }

  /** Comparing the lower-cased string with a lower-case literal is comparing ignoring case. */
  lemma LowerEqualsLiteral(s: string, literal: string)
    requires IsLowerCase(literal)
    ensures ToLower(s) == literal <==> EqualsIgnoringCase(s, literal)
  {
    if EqualsIgnoringCase(s, literal) {
      forall i | 0 <= i < |s| ensures ToLower(s)[i] == literal[i] {
        assert ToLowerChar(literal[i]) == literal[i];
      }
    }
    if ToLower(s) == literal {
      forall i | 0 <= i < |s| ensures ToLowerChar(s[i]) == ToLowerChar(literal[i]) {
        assert ToLower(s)[i] == literal[i];
      }
    }
  }

  lemma LowerOfEqualIgnoringCase(s: string, t: string)
    requires EqualsIgnoringCase(s, t)
    ensures ToLower(s) == ToLower(t)
  {
    forall i | 0 <= i < |s| ensures ToLower(s)[i] == ToLower(t)[i] {
    }
  }

  /** The ColumnSize constants, compared after ToLower. */
  const StretchSize := "stretch"
  const AutoSize := "auto"

  // ---------------------------------------------------------------------------
  // Column widths
  // ---------------------------------------------------------------------------

  /** A column of the set: its optional size string. */
  datatype Column = Column(size: Option<string>)

  /**
   * The width of a column. `tryParse` stands for double.TryParse on the
   * lower-cased size string.
   */
  function ColumnWidth(size: Option<string>, tryParse: string -> Option<real>): (w: GridLength)
    ensures size.None? ==> w == Star(1.0)
    ensures size.Some? && EqualsIgnoringCase(size.value, StretchSize) ==> w == Star(1.0)
    ensures size.Some? && EqualsIgnoringCase(size.value, AutoSize) ==> w == Auto
    ensures size.Some? && !EqualsIgnoringCase(size.value, StretchSize) && !EqualsIgnoringCase(size.value, AutoSize) ==>
      w == match tryParse(ToLower(size.value)) case Some(v) => Star(v) case None => Auto
  {
    match size
    case None => Star(1.0)
    case Some(s) =>
      var lower := ToLower(s);
      LowerEqualsLiteral(s, StretchSize);
      LowerEqualsLiteral(s, AutoSize);
      if lower == StretchSize then Star(1.0)
      else if lower == AutoSize then Auto
      else match tryParse(lower) case Some(v) => Star(v) case None => Auto
  }

  /** The width decision does not depend on the case of the size string. */
  lemma ColumnWidthIgnoresCase(s: string, t: string, tryParse: string -> Option<real>)
    requires EqualsIgnoringCase(s, t)
    ensures ColumnWidth(Some(s), tryParse) == ColumnWidth(Some(t), tryParse)
  {
    LowerOfEqualIgnoringCase(s, t);
  }

  /** A proportional width other than a single share comes from a size string that parses as that number. */
  lemma WeightedWidthIsParsed(size: Option<string>, tryParse: string -> Option<real>)
    requires ColumnWidth(size, tryParse).Star? && ColumnWidth(size, tryParse).weight != 1.0
    ensures size.Some? && tryParse(ToLower(size.value)) == Some(ColumnWidth(size, tryParse).weight)
  {
  }

  /**
   * Whether ColumnDefinition.Width accepts the width: the XAML framework
   * rejects a negative star weight with an ArgumentException.
   */
  predicate WidthAccepted(w: GridLength)
  {
    w.Auto? || w.weight >= 0.0
  }

  /** A width is rejected exactly when the size string is a number that parses as negative. */
  lemma RejectedWidthIsNegativeNumber(size: Option<string>, tryParse: string -> Option<real>)
    ensures !WidthAccepted(ColumnWidth(size, tryParse)) <==>
      size.Some? && !EqualsIgnoringCase(size.value, StretchSize) && !EqualsIgnoringCase(size.value, AutoSize) &&
      tryParse(ToLower(size.value)).Some? && tryParse(ToLower(size.value)).value < 0.0
  {
  }

  /** Every column's width is accepted. */
  predicate AllWidthsAccepted(columns: seq<Column>, tryParse: string -> Option<real>)
  {
    forall k | 0 <= k < |columns| :: WidthAccepted(ColumnWidth(columns[k].size, tryParse))
  }

  /** The column definitions of the set, one per column in order. */
  function Widths(columns: seq<Column>, tryParse: string -> Option<real>): seq<GridLength>
    decreases |columns|
  {
    if columns == [] then []
    else
      var n := |columns| - 1;
      Widths(columns[..n], tryParse) + [ColumnWidth(columns[n].size, tryParse)]
  }

  /** The element a column renders to, as produced by column.Render, is identified by a number. */
  type ElementId = nat

  /** A child of the grid with its Grid.Column attached property. */
  datatype Placed = Placed(element: ElementId, column: nat)

  /** The children of the set: each column's element, placed in the grid column of the same index. */
  function Placements(columns: seq<Column>, render: Column -> ElementId): seq<Placed>
    decreases |columns|
  {
    if columns == [] then []
    else
      var n := |columns| - 1;
      Placements(columns[..n], render) + [Placed(render(columns[n]), n)]
  }

  /** Exactly one column definition per column, in column order. */
  lemma {:induction false} WidthsPerColumn(columns: seq<Column>, tryParse: string -> Option<real>)
    ensures |Widths(columns, tryParse)| == |columns|
    ensures forall k | 0 <= k < |columns| :: Widths(columns, tryParse)[k] == ColumnWidth(columns[k].size, tryParse)
    decreases |columns|
  {
    if columns != [] {
      var n := |columns| - 1;
      WidthsPerColumn(columns[..n], tryParse);
    }
  }

  /** The k-th child is the k-th column's element, in grid column k. */
  lemma {:induction false} PlacementsPerColumn(columns: seq<Column>, render: Column -> ElementId)
    ensures |Placements(columns, render)| == |columns|
    ensures forall k | 0 <= k < |columns| :: Placements(columns, render)[k] == Placed(render(columns[k]), k)
    decreases |columns|
  {
    if columns != [] {
      var n := |columns| - 1;
      PlacementsPerColumn(columns[..n], render);
    }
  }

  // ---------------------------------------------------------------------------
  // The grid and the renderer
  // ---------------------------------------------------------------------------

  /** The XAML Grid the renderer builds. */
  class Grid {
    var style: string
    var columnDefinitions: seq<GridLength>
    var children: seq<Placed>

    constructor(style: string)
      ensures this.style == style && columnDefinitions == [] && children == []
    {
      this.style := style;
      columnDefinitions := [];
      children := [];
    }

    /** ColumnDefinitions.Add. */
    method AddColumnDefinition(width: GridLength)
      modifies this
      ensures columnDefinitions == old(columnDefinitions) + [width]
      ensures style == old(style) && children == old(children)
    {
      columnDefinitions := columnDefinitions + [width];
    }

    /** Grid.SetColumn on the element followed by Children.Add. */
    method AddChild(element: ElementId, column: nat)
      modifies this
      ensures children == old(children) + [Placed(element, column)]
      ensures style == old(style) && columnDefinitions == old(columnDefinitions)
    {
      children := children + [Placed(element, column)];
    }
  }

  /** What Render gives: the alternate renderer's element, the grid, or the exception thrown at a column's width. */
  datatype Rendered = AlternateElement(element: ElementId) | GridElement(grid: Grid) | WidthRejected(column: nat)

  /**
   * ColumnSet.Render. `alternateRenderer` is the static AlternateRenderer
   * override, `render` stands for column.Render and `tryParse` for
   * double.TryParse. The first column whose width is rejected ends the
   * rendering with the exception.
   */
  method Render(columns: seq<Column>, alternateRenderer: Option<seq<Column> -> ElementId>,
                render: Column -> ElementId, tryParse: string -> Option<real>) returns (r: Rendered)
    ensures alternateRenderer.Some? ==> r == AlternateElement(alternateRenderer.value(columns))
    ensures alternateRenderer.None? && AllWidthsAccepted(columns, tryParse) ==>
      r.GridElement? && fresh(r.grid) && r.grid.style == "Adaptive.ColumnSet" &&
      r.grid.columnDefinitions == Widths(columns, tryParse) &&
      r.grid.children == Placements(columns, render)
    ensures alternateRenderer.None? && !AllWidthsAccepted(columns, tryParse) ==>
      r.WidthRejected? && r.column < |columns| &&
      !WidthAccepted(ColumnWidth(columns[r.column].size, tryParse)) &&
      AllWidthsAccepted(columns[..r.column], tryParse)
  {
    if alternateRenderer.Some? {
      return AlternateElement(alternateRenderer.value(columns));
    }

    var uiColumnSet := new Grid("Adaptive.ColumnSet");

    var iCol := 0;
    for k := 0 to |columns|
      invariant iCol == k
      invariant uiColumnSet.style == "Adaptive.ColumnSet"
      invariant uiColumnSet.columnDefinitions == Widths(columns[..k], tryParse)
      invariant uiColumnSet.children == Placements(columns[..k], render)
      invariant AllWidthsAccepted(columns[..k], tryParse)
    {
      assert columns[..k + 1][..k] == columns[..k];
      var column := columns[k];
      var uiElement := render(column);
      var width := ColumnWidth(column.size, tryParse);
      if !WidthAccepted(width) {
        assert !AllWidthsAccepted(columns, tryParse);
        return WidthRejected(k);
      }
      uiColumnSet.AddColumnDefinition(width);
      uiColumnSet.AddChild(uiElement, iCol);
      iCol := iCol + 1;
    }
    assert columns[..|columns|] == columns;
    return GridElement(uiColumnSet);
  }
}
