/**
 * How the pieces fit together: the fixture statement, turned into its dict
 * form, fed to the record builder and to the spreadsheet renderer.
 */
module Pipeline {
  import opened Optional
  import opened PyStr
  import opened Payload
  import opened JsonDoc
  import opened Extractor
  import opened Exporter
  import opened Models

  /** The fixture's year labels, newest first. */
  const FixtureColumns: seq<string> := ["FY 25", "FY 24", "FY 23", "FY 22", "FY 21", "FY 20"]

  lemma FixtureColumnsDescending()
    ensures StrictlyDescending(FixtureColumns)
    ensures forall y :: y in FixtureColumns <==> y in FixtureYears
  {
    forall i, j | 0 <= i < j < |FixtureColumns|
      ensures Below(FixtureColumns[j], FixtureColumns[i])
    {
      assert FixtureColumns[j][..4] == "FY 2" == FixtureColumns[i][..4];
      BelowAt(FixtureColumns[j], FixtureColumns[i], 4);
    }
  }

  /**
   * A record built from the fixture's dict has 21 line items, the statement's own currency
   * and units (not the record defaults), an accuracy within the fixture's
   * confidence range, and a blob that reads back as the same dict.
   */
  lemma FixtureRecord(filename: string, text: string)
    ensures var data := ToDict(ExtractFinancialData(text));
      var r := FromData(filename, data);
      && r.lineItemCount == 21
      && r.currency == "INR" && r.units == "Millions"
      && 0.92 <= r.accuracy <= 0.99
      && DecodeTable(GetData(r)) == Some(data)
  {
    var s := ExtractFinancialData(text);
    var data := ToDict(s);
    FixtureWellFormed(text);
    forall i | 0 <= i < |ItemsOf(data)|
      ensures 0.92 <= ConfidenceOf(ItemsOf(data)[i]) <= 0.99
    {
      assert ItemsOf(data)[i] == ItemToDict(s.items[i]);
      assert FixtureRow(s.items[i]);
    }
    AccuracyWithin(filename, data, 0.92, 0.99);
  }

  /** The fixture's dict form meets what `CompleteTableRender` needs, with the columns FY 25 down to FY 20. */
  lemma FixtureDictComplete(s: IncomeStatement)
    requires forall i :: 0 <= i < |s.items| ==> FixtureRow(s.items[i])
    requires |s.items| > 0
    ensures var items := ItemsOf(ToDict(s));
      && items != []
      && StrictlyDescending(FixtureColumns) && (forall y :: y in FixtureColumns <==> y in items[0].values)
      && (forall i, y :: 0 <= i < |items| && y in items[0].values ==> y in items[i].values && items[i].values[y].Some?)
      && (forall i :: 0 <= i < |items| ==> items[i].particulars == s.items[i].particulars)
  {
    FixtureColumnsDescending();
    var items := ItemsOf(ToDict(s));
    assert forall i :: 0 <= i < |items| ==> items[i] == ItemToDict(s.items[i]);
    assert FixtureRow(s.items[0]);
  }

  /**
   * A 21-row statement whose rows are all fixture-shaped renders with the
   * header `Particulars, FY 25, ..., FY 20`, 21 labelled rows and no blank.
   */
  lemma FixtureShapedSpreadsheet(s: IncomeStatement)
    requires |s.items| == 21
    requires forall i :: 0 <= i < |s.items| ==> FixtureRow(s.items[i])
    ensures var art := Render(ToDict(s));
      && art.Workbook?
      && art.header == ["Particulars"] + FixtureColumns
      && |art.rows| == 21
      && (forall i :: 0 <= i < 21 ==> |art.rows[i]| == 7 && art.rows[i][0] == Text(s.items[i].particulars))
      && NoBlankCells(art)
  {
    FixtureDictComplete(s);
    CompleteTableRender(ToDict(s), FixtureColumns);
    forall i | 0 <= i < 21
      ensures |Render(ToDict(s)).rows[i]| == 7
    {
      RenderRows(ToDict(s), i);
    }
  }

  /**
   * Rendering the fixture gives the header `Particulars, FY 25, ..., FY 20`,
   * 21 rows and no blank cell anywhere (`FixtureShapedSpreadsheet` also
   * gives each row's label).
   */
  lemma FixtureSpreadsheet(text: string)
    ensures Render(ToDict(ExtractFinancialData(text))).Workbook?
    ensures Render(ToDict(ExtractFinancialData(text))).header == ["Particulars"] + FixtureColumns
    ensures |Render(ToDict(ExtractFinancialData(text))).rows| == 21
    ensures NoBlankCells(Render(ToDict(ExtractFinancialData(text))))
  {
    FixtureWellFormed(text);
    FixtureShapedSpreadsheet(ExtractFinancialData(text));
  }
}
