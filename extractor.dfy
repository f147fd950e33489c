/**
 * The extraction engine's data model and its deterministic offline variant.
 *
 * `FinancialLineItem` and `IncomeStatement` are the engine's records;
 * `ExtractFinancialData` ignores the document text and returns a fixed
 * 21-row income statement (INR, Millions, FY 25 back to FY 20).
 */
module Extractor {
  import opened Optional
  import opened Payload

  /** One row of the statement: a label, a value per year label (`None` is a null), a confidence and a note. */
  datatype FinancialLineItem = FinancialLineItem(
    particulars: string,
    values: map<string, Option<real>>,
    confidence: real,
    notes: Option<string>)

  datatype IncomeStatement = IncomeStatement(
    items: seq<FinancialLineItem>,
    currency: string,
    units: string)

  /** The reporting periods every fixture row carries. */
  const FixtureYears: set<string> := {"FY 25", "FY 24", "FY 23", "FY 22", "FY 21", "FY 20"}

  /** A values dict holding all six reporting periods, newest first, none of them null. */
  function Yearly(fy25: real, fy24: real, fy23: real, fy22: real, fy21: real, fy20: real): (m: map<string, Option<real>>)
    ensures m.Keys == FixtureYears
    ensures forall y :: y in m ==> m[y].Some?
    ensures m["FY 25"] == Some(fy25) && m["FY 24"] == Some(fy24) && m["FY 23"] == Some(fy23)
    ensures m["FY 22"] == Some(fy22) && m["FY 21"] == Some(fy21) && m["FY 20"] == Some(fy20)
  {
    map["FY 25" := Some(fy25), "FY 24" := Some(fy24), "FY 23" := Some(fy23),
        "FY 22" := Some(fy22), "FY 21" := Some(fy21), "FY 20" := Some(fy20)]
  }

  /** Revenue lines. */
  const RevenueRows: seq<FinancialLineItem> := [
    FinancialLineItem("Revenue from ops",
      Yearly(204813.0, 163210.0, 133905.0, 89582.0, 65557.0, 72484.0),
      0.99, None),
    FinancialLineItem("Other sources",
      Yearly(1212.0, 793.6, 388.49, 679.0, 369.0, 425.2),
      0.98, None),
    FinancialLineItem("Total Revenue",
      Yearly(206025.0, 164003.6, 134293.49, 90262.0, 65927.0, 72909.0),
      0.99, None)
  ]

  /** Materials consumed. */
  const MaterialRows: seq<FinancialLineItem> := [
    FinancialLineItem("Inventories at beginning of year",
      Yearly(9756.31, 9613.51, 8070.05, 3965.62, 3925.27, 2595.55),
      0.96, None),
    FinancialLineItem("Purchases during the year (net)",
      Yearly(87635.34, 72762.19, 72052.48, 46890.27, 28499.0, 32713.89),
      0.95, None),
    FinancialLineItem("Less: Sold during the year",
      Yearly(-1308.84, -2354.78, 6338.1, 3096.71, 1573.56, 2039.19),
      0.92, None),
    FinancialLineItem("Less: Inventories at end of the year",
      Yearly(-13786.1, -9756.31, 9613.51, 8070.05, 3965.62, 3925.27),
      0.93, None),
    FinancialLineItem("Cost of materials consumed",
      Yearly(82937.43, 70264.61, 64170.92, 39689.13, 26885.09, 29395.56),
      0.95, None)
  ]

  /** Employee costs. */
  const EmployeeRows: seq<FinancialLineItem> := [
    FinancialLineItem("Salaries, wages and bonus",
      Yearly(17067.81, 13041.12, 11026.09, 9126.69, 8131.06, 7429.61),
      0.98, None),
    FinancialLineItem("Contribution to provident fund",
      Yearly(816.67, 679.36, 538.82, 483.82, 445.89, 386.82),
      0.97, None),
    FinancialLineItem("Total employee benefits expense",
      Yearly(18850.26, 14465.87, 12166.42, 10076.99, 8897.36, 8108.15),
      0.97, None)
  ]

  /** Other expenses, line by line. */
  const OtherExpenseRows: seq<FinancialLineItem> := [
    FinancialLineItem("Power and fuel",
      Yearly(6295.08, 5502.85, 4792.2, 3299.25, 2670.0, 2790.62),
      0.94, None),
    FinancialLineItem("Repairs to plant and equipment",
      Yearly(3837.09, 2973.81, 2577.68, 1679.09, 1328.41, 1195.08),
      0.95, None),
    FinancialLineItem("Rent",
      Yearly(970.54, 801.6, 542.21, 496.86, 510.55, 559.14),
      0.98, None),
    FinancialLineItem("Traveling and conveyance",
      Yearly(1550.41, 1215.23, 1064.08, 674.93, 511.45, 840.45),
      0.94, None),
    FinancialLineItem("Freight, octroi and insurance",
      Yearly(14031.34, 11020.58, 9112.67, 6189.91, 4588.28, 4554.66),
      0.96, None),
    FinancialLineItem("Distribution expenses",
      Yearly(3064.82, 2250.15, 2100.79, 1440.23, 103.38, 116.14),
      0.95, None)
  ]

  /** Final profitability. */
  const ProfitabilityRows: seq<FinancialLineItem> := [
    FinancialLineItem("EBITDA",
      Yearly(48322.81, 36888.55, 28269.05, 17225.93, 12387.67, 14900.34),
      0.96, None),
    FinancialLineItem("Finance Costs",
      Yearly(4503.86, 2680.99, 1861.22, 1847.0, 2811.04, 3096.42),
      0.94, None),
    FinancialLineItem("Depreciation",
      Yearly(9473.86, 6809.0, 6171.0, 5312.0, 5287.0, 4886.0),
      0.95, None),
    FinancialLineItem("Profit After Tax",
      Yearly(26342.27, 21018.3, 15501.77, 7461.93, 3572.63, 4720.25),
      0.98, None)
  ]

  /** The fixture's rows, top to bottom; `notes` is left at its default of None. */
  const FixtureItems: seq<FinancialLineItem> :=
    RevenueRows + MaterialRows + EmployeeRows + OtherExpenseRows + ProfitabilityRows

  /** `extract_financial_data(text)`: the text is not consulted. */
  function ExtractFinancialData(text: string): (s: IncomeStatement)
    ensures |s.items| == 21
    ensures s.currency == "INR" && s.units == "Millions"
  {
    assert |RevenueRows| == 3 && |MaterialRows| == 5 && |EmployeeRows| == 3;
    assert |OtherExpenseRows| == 6 && |ProfitabilityRows| == 4;
    IncomeStatement(FixtureItems, "INR", "Millions")
  }

  /** A year label of the normalised form `FY ` followed by two digits. */
  predicate IsYearLabel(y: string)
  {
    |y| == 5 && y[..3] == "FY " && '0' <= y[3] <= '9' && '0' <= y[4] <= '9'
  }

  /** The well-formedness the fixture satisfies row by row. */
  predicate FixtureRow(item: FinancialLineItem)
  {
    && item.values.Keys == FixtureYears
    && (forall y :: y in item.values ==> item.values[y].Some?)
    && 0.92 <= item.confidence <= 0.99
    && |item.particulars| > 0
    && item.notes == None
  }

  /** Two calls return equal statements whatever their input texts. */
  lemma ExtractIgnoresText(text1: string, text2: string)
    ensures ExtractFinancialData(text1) == ExtractFinancialData(text2)
  {
  }

  /** The fixture lists its rows in source order, from revenue down to profit after tax. */
  lemma FixtureOrder(text: string)
    ensures ExtractFinancialData(text).items[0].particulars == "Revenue from ops"
    ensures ExtractFinancialData(text).items[20].particulars == "Profit After Tax"
  {
  }

  // Row-by-row well-formedness, one section at a time (one proof of all 21
  // rows at once is too large for the solver).

  lemma RevenueRowsWellFormed()
    ensures forall item :: item in RevenueRows ==> FixtureRow(item)
  {
  }

  lemma MaterialRowsWellFormed()
    ensures forall item :: item in MaterialRows ==> FixtureRow(item)
  {
  }

  lemma EmployeeRowsWellFormed()
    ensures forall item :: item in EmployeeRows ==> FixtureRow(item)
  {
  }

  lemma OtherExpenseRowsWellFormed()
    ensures forall item :: item in OtherExpenseRows ==> FixtureRow(item)
  {
  }

  lemma ProfitabilityRowsWellFormed()
    ensures forall item :: item in ProfitabilityRows ==> FixtureRow(item)
  {
  }

  /** Every fixture row has the six year labels, no null, a confidence in [0.92, 0.99], a label and no note. */
  lemma FixtureWellFormed(text: string)
    ensures forall i :: 0 <= i < |ExtractFinancialData(text).items| ==> FixtureRow(ExtractFinancialData(text).items[i])
  {
    RevenueRowsWellFormed();
    MaterialRowsWellFormed();
    EmployeeRowsWellFormed();
    OtherExpenseRowsWellFormed();
    ProfitabilityRowsWellFormed();
    forall i | 0 <= i < |FixtureItems|
      ensures FixtureRow(FixtureItems[i])
    {
      assert FixtureItems[i] in FixtureItems;
    }
  }

  /** Every year key of every row of the statement has the form `FY dd`, and every confidence lies in [0, 1]. */
  lemma FixtureLabelsAndConfidences(text: string)
    ensures forall i, y :: 0 <= i < |ExtractFinancialData(text).items| && y in ExtractFinancialData(text).items[i].values ==>
      IsYearLabel(y)
    ensures forall i :: 0 <= i < |ExtractFinancialData(text).items| ==>
      0.0 <= ExtractFinancialData(text).items[i].confidence <= 1.0
  {
    FixtureWellFormed(text);
    FixtureYearLabels();
  }

  /** The six fixture periods all have the form `FY dd`. */
  lemma FixtureYearLabels()
    ensures forall y :: y in FixtureYears ==> IsYearLabel(y)
  {
  }

  // ---- `.dict()`: the statement as the table-shaped dict ----

  function ItemToDict(item: FinancialLineItem): (d: ItemDict)
    ensures d.particulars == item.particulars && d.values == item.values
    ensures d.confidence == Some(item.confidence) && d.notes == item.notes
  {
    ItemDict(item.particulars, item.values, Some(item.confidence), item.notes)
  }

  /** `statement.dict()`: every key is present, every item carries its confidence. */
  function ToDict(s: IncomeStatement): (d: TableDict)
    ensures d.items.Some? && |d.items.value| == |s.items|
    ensures forall i :: 0 <= i < |s.items| ==> d.items.value[i] == ItemToDict(s.items[i])
    ensures d.currency == Some(s.currency) && d.units == Some(s.units)
  {
    TableDict(Some(seq(|s.items|, i requires 0 <= i < |s.items| => ItemToDict(s.items[i]))), Some(s.currency), Some(s.units))
  }
}
