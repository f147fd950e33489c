/**
 * The spreadsheet renderer (`generate_excel`): a table-shaped dict becomes a
 * sheet named "Financials" with a header row, one row per item and column
 * widths.
 *
 * The year columns are the keys of the FIRST item's `values`, sorted
 * descending; later items are laid out against those columns only. A
 * missing or null value is a blank cell. The workbook bytes are not
 * modelled: the artifact is the logical header, grid and widths.
 */
module Exporter {
  import opened Optional
  import opened PyStr
  import opened Payload

  /** A spreadsheet cell: the row label, a number, or the empty string `""`. */
  datatype Cell = Text(text: string) | Num(number: real) | Blank

  /** `Empty` is the empty `BytesIO()` returned when there are no items. */
  datatype Artifact =
    | Empty
    | Workbook(sheet: string, header: seq<string>, rows: seq<seq<Cell>>, widths: map<nat, nat>)

  const SheetName := "Financials"
  const LabelColumn := "Particulars"
  const LabelWidth: nat := 25
  const ValueWidth: nat := 15

  /** `sorted(list(first['values'].keys()), reverse=True)` */
  function YearColumns(first: ItemDict): (years: seq<string>)
    ensures StrictlyDescending(years)
    ensures forall y :: y in years <==> y in first.values
  {
    SortedDesc(first.values.Keys)
  }

  /** The cell for one (item, year): `values.get(year)`, with a null or absent value written as `""`. */
  function CellFor(values: map<string, Option<real>>, year: string): (c: Cell)
    ensures c == Blank <==> year !in values || values[year].None?
    ensures forall x :: c == Num(x) <==> year in values && values[year] == Some(x)
  {
    if year in values && values[year].Some? then Num(values[year].value) else Blank
  }

  /** The row for one item: its label, then one cell per year column in header order. */
  function RowFor(item: ItemDict, years: seq<string>): (row: seq<Cell>)
    ensures |row| == |years| + 1
    ensures row[0] == Text(item.particulars)
    ensures forall j :: 0 <= j < |years| ==> row[j + 1] == CellFor(item.values, years[j])
  {
    [Text(item.particulars)] + seq(|years|, j requires 0 <= j < |years| => CellFor(item.values, years[j]))
  }

  /** The code point `chr(65 + i)` that addresses column i of the sheet. */
  function ColumnLetter(i: nat): (code: nat)
    ensures code >= 65
  {
    65 + i
  }

  /** True when a code point is one of the column letters `A`..`Z`. */
  predicate IsColumnLetter(code: nat)
  {
    'A' as nat <= code <= 'Z' as nat
  }

  /** `25 if i == 0 else 15` */
  function ColumnWidth(i: nat): nat
  {
    if i == 0 then LabelWidth else ValueWidth
  }

  /** The widths the loop over the first `n` columns has set: 25 for column 0, 15 for the rest, nothing else. */
  function WidthsFor(n: nat): (widths: map<nat, nat>)
    ensures |widths| == n
    ensures forall i :: 0 <= i < n ==> ColumnLetter(i) in widths && widths[ColumnLetter(i)] == ColumnWidth(i)
    ensures forall code :: code in widths ==> 65 <= code < 65 + n
  {
    if n == 0 then map[] else WidthsFor(n - 1)[ColumnLetter(n - 1) := ColumnWidth(n - 1)]
  }

  lemma UnionUpdate(a: map<nat, nat>, b: map<nat, nat>, k: nat, v: nat)
    ensures (a + b)[k := v] == a + b[k := v]
  {
  }

  /** The worksheet whose `column_dimensions` the renderer adjusts in place. */
  class Worksheet {
    var columnWidths: map<nat, nat>

    constructor ()
      ensures columnWidths == map[]
    {
      columnWidths := map[];
    }

    /** `for i, col in enumerate(df.columns): column_dimensions[chr(65 + i)].width = 25 if i == 0 else 15` */
    method AdjustColumnWidths(columns: nat)
      modifies this
      ensures columnWidths == old(columnWidths) + WidthsFor(columns)
    {
      for i := 0 to columns
        invariant columnWidths == old(columnWidths) + WidthsFor(i)
      {
        UnionUpdate(old(columnWidths), WidthsFor(i), ColumnLetter(i), ColumnWidth(i));
        columnWidths := columnWidths[ColumnLetter(i) := ColumnWidth(i)];
      }
    }
  }

  /** The rows loop: one row per item, in input order, each laid out against `years`. */
  method BuildRows(items: seq<ItemDict>, years: seq<string>) returns (rows: seq<seq<Cell>>)
    ensures |rows| == |items|
    ensures forall i :: 0 <= i < |items| ==> rows[i] == RowFor(items[i], years)
  {
    rows := [];
    for i := 0 to |items|
      invariant |rows| == i
      invariant forall k :: 0 <= k < i ==> rows[k] == RowFor(items[k], years)
    {
      var item := items[i];
      var row := [Text(item.particulars)];
      for j := 0 to |years|
        invariant |row| == j + 1
        invariant row[0] == Text(item.particulars)
        invariant forall k :: 0 <= k < j ==> row[k + 1] == CellFor(item.values, years[k])
      {
        var val := if years[j] in item.values then item.values[years[j]] else None;
        row := row + [if val.Some? then Num(val.value) else Blank];
      }
      rows := rows + [row];
    }
  }

  /** The grid: row i is item i laid out against `years`. */
  function Rows(items: seq<ItemDict>, years: seq<string>): (rows: seq<seq<Cell>>)
    ensures |rows| == |items|
    ensures forall i :: 0 <= i < |items| ==> rows[i] == RowFor(items[i], years)
  {
    seq(|items|, i requires 0 <= i < |items| => RowFor(items[i], years))
  }

  /** What `generate_excel` produces for a table dict. */
  function Render(data: TableDict): Artifact
  {
    var items := ItemsOf(data);
    if |items| == 0 then Empty
    else
      var years := YearColumns(items[0]);
      Workbook(SheetName, [LabelColumn] + years, Rows(items, years), WidthsFor(1 + |years|))
  }

  /** The formatting step on a freshly written sheet with `columns` columns: the widths it ends up with. */
  method FormatColumns(columns: nat) returns (widths: map<nat, nat>)
    ensures widths == WidthsFor(columns)
  {
    var worksheet := new Worksheet();
    worksheet.AdjustColumnWidths(columns);
    widths := worksheet.columnWidths;
  }

  /** `generate_excel(data)` */
  method GenerateExcel(data: TableDict) returns (artifact: Artifact)
    ensures artifact == Render(data)
  {
    var items := ItemsOf(data);
    if |items| == 0 {
      return Empty;
    }
    var years := YearColumns(items[0]);
    var rows := BuildRows(items, years);
    var columns := [LabelColumn] + years;
    var widths := FormatColumns(|columns|);
    assert rows == Rows(items, years);
    artifact := Workbook(SheetName, columns, rows, widths);
  }

  // ---- properties of the rendered artifact ----

  /** The artifact is empty exactly when `items` is missing or empty. */
  lemma RenderEmptyIff(data: TableDict)
    ensures Render(data) == Empty <==> ItemsOf(data) == []
  {
  }

  /** The header is "Particulars" and then exactly the first item's year keys, strictly descending. */
  lemma RenderHeader(data: TableDict)
    requires ItemsOf(data) != []
    ensures Render(data).header[0] == LabelColumn
    ensures StrictlyDescending(Render(data).header[1..])
    ensures forall y :: y in Render(data).header[1..] <==> y in ItemsOf(data)[0].values
    ensures |Render(data).header| == 1 + |ItemsOf(data)[0].values|
  {
    assert Render(data).header[1..] == YearColumns(ItemsOf(data)[0]);
  }

  /** The header is the only strictly descending arrangement of the first item's keys. */
  lemma RenderHeaderUnique(data: TableDict, years: seq<string>)
    requires ItemsOf(data) != []
    requires StrictlyDescending(years)
    requires forall y :: y in years <==> y in ItemsOf(data)[0].values
    ensures Render(data).header == [LabelColumn] + years
  {
    DescendingUnique(years, YearColumns(ItemsOf(data)[0]));
  }

  /** The columns depend on the first item's keys only; a year only later items carry is never a column. */
  lemma RenderColumnsFromFirstItem(data1: TableDict, data2: TableDict, y: string)
    requires ItemsOf(data1) != [] && ItemsOf(data2) != []
    requires ItemsOf(data1)[0].values.Keys == ItemsOf(data2)[0].values.Keys
    ensures Render(data1).header == Render(data2).header
    ensures y !in ItemsOf(data1)[0].values ==> y !in Render(data1).header[1..]
  {
    RenderHeader(data1);
  }

  /** One row per item, in input order; each starts with the item's label and has one cell per year column. */
  lemma RenderRows(data: TableDict, i: nat)
    requires i < |ItemsOf(data)|
    ensures |Render(data).rows| == |ItemsOf(data)|
    ensures |Render(data).rows[i]| == |Render(data).header|
    ensures Render(data).rows[i][0] == Text(ItemsOf(data)[i].particulars)
  {
  }

  /**
   * The cell in row i under header column j + 1 is the item's number for that
   * year when it has a non-null one, and blank when the year is absent or
   * null; a missing value never renders as 0.
   */
  lemma RenderCell(data: TableDict, i: nat, j: nat)
    requires i < |ItemsOf(data)|
    requires j + 1 < |Render(data).header|
    ensures var item, year := ItemsOf(data)[i], Render(data).header[j + 1];
      && (Render(data).rows[i][j + 1] == Blank <==> year !in item.values || item.values[year].None?)
      && (year in item.values && item.values[year].Some? ==> Render(data).rows[i][j + 1] == Num(item.values[year].value))
  {
    RenderedCell(data, i, j);
    var cell := CellFor(ItemsOf(data)[i].values, Render(data).header[j + 1]);
  }

  /** The cell in row i under header column j + 1 is the item's cell for that column's year. */
  lemma RenderedCell(data: TableDict, i: nat, j: nat)
    requires i < |ItemsOf(data)|
    requires j + 1 < |Render(data).header|
    ensures |Render(data).rows[i]| == |Render(data).header|
    ensures Render(data).rows[i][j + 1] == CellFor(ItemsOf(data)[i].values, Render(data).header[j + 1])
  {
    var items := ItemsOf(data);
    var years := YearColumns(items[0]);
    RenderUnfold(data, items, years);
    GridCell(items, years, i, j);
  }

  /** A non-empty table renders as the workbook built from its items and the first item's years. */
  lemma RenderUnfold(data: TableDict, items: seq<ItemDict>, years: seq<string>)
    requires items == ItemsOf(data) && items != [] && years == YearColumns(items[0])
    ensures Render(data) == Workbook(SheetName, [LabelColumn] + years, Rows(items, years), WidthsFor(1 + |years|))
  {
  }

  /** The grid's cell in row i under year j, next to its header. */
  lemma GridCell(items: seq<ItemDict>, years: seq<string>, i: nat, j: nat)
    requires i < |items| && j < |years|
    ensures |Rows(items, years)[i]| == |[LabelColumn] + years|
    ensures ([LabelColumn] + years)[j + 1] == years[j]
    ensures Rows(items, years)[i][j + 1] == CellFor(items[i].values, years[j])
  {
  }

  /** A workbook none of whose cells is blank. */
  predicate NoBlankCells(art: Artifact)
  {
    art.Workbook? && forall i, j :: 0 <= i < |art.rows| && 0 <= j < |art.rows[i]| ==> art.rows[i][j] != Blank
  }

  /**
   * When every item carries a non-null value for every header year, no cell
   * of the sheet is blank.
   */
  lemma NoBlankWhenComplete(data: TableDict)
    requires ItemsOf(data) != []
    requires forall i, y :: 0 <= i < |ItemsOf(data)| && y in ItemsOf(data)[0].values ==>
      y in ItemsOf(data)[i].values && ItemsOf(data)[i].values[y].Some?
    ensures NoBlankCells(Render(data))
  {
    var items := ItemsOf(data);
    var years := YearColumns(items[0]);
    assert Render(data).Workbook?;
    forall i, j | 0 <= i < |Render(data).rows| && 0 <= j < |Render(data).rows[i]|
      ensures Render(data).rows[i][j] != Blank
    {
      var row := RowFor(items[i], years);
      assert Render(data).rows[i] == row;
      if j > 0 {
        assert row[j] == CellFor(items[i].values, years[j - 1]);
        assert years[j - 1] in items[0].values;
      }
    }
  }

  /**
   * A table whose items all carry non-null values for the years `years` (the
   * first item's keys, newest first) renders with `years` as its header, one
   * labelled row per item and no blank cell.
   */
  lemma CompleteTableRender(data: TableDict, years: seq<string>)
    requires ItemsOf(data) != []
    requires StrictlyDescending(years) && forall y :: y in years <==> y in ItemsOf(data)[0].values
    requires forall i, y :: 0 <= i < |ItemsOf(data)| && y in ItemsOf(data)[0].values ==>
      y in ItemsOf(data)[i].values && ItemsOf(data)[i].values[y].Some?
    ensures Render(data).Workbook?
    ensures Render(data).header == [LabelColumn] + years
    ensures |Render(data).rows| == |ItemsOf(data)|
    ensures forall i :: 0 <= i < |ItemsOf(data)| ==> Render(data).rows[i][0] == Text(ItemsOf(data)[i].particulars)
    ensures NoBlankCells(Render(data))
  {
    RenderHeaderUnique(data, years);
    NoBlankWhenComplete(data);
  }

  /** Column 0 is 25 wide and every other column 15, one entry per header column. */
  lemma RenderWidths(data: TableDict, i: nat)
    requires ItemsOf(data) != []
    requires i < |Render(data).header|
    ensures ColumnLetter(i) in Render(data).widths
    ensures Render(data).widths[ColumnLetter(i)] == ColumnWidth(i)
    ensures |Render(data).widths| == |Render(data).header|
  {
  }

  /**
   * Every width key the sheet gets is a column letter `A`..`Z` exactly when
   * the header has at most 26 columns; a 27th column gets `chr(91)`.
   */
  lemma ColumnLetterValid(data: TableDict)
    requires ItemsOf(data) != []
    ensures (forall code :: code in Render(data).widths ==> IsColumnLetter(code)) <==> |Render(data).header| <= 26
  {
    var items := ItemsOf(data);
    var years := YearColumns(items[0]);
    RenderUnfold(data, items, years);
    WidthKeysAreLetters(1 + |years|);
  }

  /** The keys of the first n columns' widths are all letters exactly when n <= 26. */
  lemma WidthKeysAreLetters(n: nat)
    ensures (forall code :: code in WidthsFor(n) ==> IsColumnLetter(code)) <==> n <= 26
  {
    var widths := WidthsFor(n);
    if n > 26 {
      assert ColumnLetter(26) in widths && ColumnLetter(26) == 91;
      assert !IsColumnLetter(ColumnLetter(26));
    } else {
      forall code | code in widths
        ensures IsColumnLetter(code)
      {
        assert 65 <= code < 65 + n;
        assert 'A' as nat == 65 && 'Z' as nat == 90;
      }
    }
  }

  /** The one item of the scenario below. */
  const RevenueItem := ItemDict("Revenue", map["FY 24" := Some(100.0), "FY 23" := None], Some(0.9), None)

  /** The scenario's year columns: FY 24 sorts before FY 23. */
  lemma RevenueWithNullYears()
    ensures YearColumns(RevenueItem) == ["FY 24", "FY 23"]
  {
    var newer, older := "FY 24", "FY 23";
    assert older[..4] == newer[..4];
    BelowAt(older, newer, 4);
    assert RevenueItem.values.Keys == {newer, older};
    SortedPair(RevenueItem.values.Keys, newer, older);
  }

  /**
   * A single "Revenue" item with 100 for FY 24 and a null for FY 23 renders
   * as one row: the label, 100 under FY 24, and a blank under FY 23.
   */
  lemma RevenueWithNullScenario(data: TableDict)
    requires ItemsOf(data) == [RevenueItem]
    ensures Render(data).header == ["Particulars", "FY 24", "FY 23"]
    ensures Render(data).rows == [[Text("Revenue"), Num(100.0), Blank]]
    ensures Render(data).widths == map[65 := 25, 66 := 15, 67 := 15]
  {
    RevenueWithNullYears();
    var years := ["FY 24", "FY 23"];
    RenderUnfold(data, [RevenueItem], years);
    RevenueRow(years);
    ThreeColumnWidths();
    assert [LabelColumn] + years == ["Particulars", "FY 24", "FY 23"];
  }

  /** A three-column sheet: column A is 25 wide, B and C 15. */
  lemma ThreeColumnWidths()
    ensures WidthsFor(3) == map[65 := 25, 66 := 15, 67 := 15]
  {
    assert WidthsFor(1) == map[65 := 25];
    assert WidthsFor(2) == map[65 := 25, 66 := 15];
  }

  /** The scenario's grid: one row holding the label, 100 and a blank. */
  lemma RevenueRow(years: seq<string>)
    requires years == ["FY 24", "FY 23"]
    ensures Rows([RevenueItem], years) == [[Text("Revenue"), Num(100.0), Blank]]
  {
    GridCell([RevenueItem], years, 0, 0);
    GridCell([RevenueItem], years, 0, 1);
    var row := Rows([RevenueItem], years)[0];
    assert row[1] == Num(100.0) && row[2] == Blank;
    assert row == [Text("Revenue"), Num(100.0), Blank];
  }
}
