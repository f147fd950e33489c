# SheetForge core, modelled in Dafny

SheetForge takes a PDF financial statement, extracts an income-statement
table (line items with a value per fiscal year and a confidence), returns
it as a dict, and renders a table as an Excel sheet. The code also defines
an extraction record with a denormalised summary and its builder
`from_data`, but no route creates a record or opens a database session.
This project models the three pieces that carry logic and proves what
they promise:

- **Extraction engine data model and fixture** (`backend/extractor.py`):
  `FinancialLineItem` and `IncomeStatement` as datatypes, and
  `extract_financial_data` as a constant function returning the 21-row
  offline statement (INR, Millions, FY 25 down to FY 20). Module
  `Extractor`, file `extractor.dfy`.
- **Spreadsheet renderer** (`backend/exporter.py`, `generate_excel`): the
  empty-input policy, the choice of year columns (the first item's keys,
  sorted descending by Python's string order), the row loop that lays each
  item out against those columns with blanks for missing or null values,
  and the loop that sets column widths on the worksheet. Module `Exporter`,
  file `exporter.dfy`; Python's string order and `sorted(..., reverse=True)`
  are in module `PyStr`, file `pystr.dfy`.
- **Extraction record** (`backend/models.py`): the record's fields and
  defaults, `from_data` (item count, mean confidence, currency and units
  with their defaults, the whole table kept as a JSON document) and
  `get_data`. Module `Models`, file `models.dfy`; the JSON document and
  its encoder/decoder pair are in module `JsonDoc`, file `jsondoc.dfy`.

The table-shaped dict that `generate_excel` and `from_data` receive is the
value type `Payload.TableDict` (`payload.dfy`): a key that may be missing
is an `Option`, so `data.get(key, default)` is `GetOr(default)`.
`Extractor.ToDict` is `statement.dict()`, the bridge from the engine's
records to that dict. Module `Pipeline` (`pipeline.dfy`) feeds the fixture's
dict to the record builder and to the renderer; the first of these
compositions exists only in the model.

Modelling choices:

- Numbers (values, confidences, the accuracy) are `real`.
- The renderer's output is `Exporter.Artifact`: `Empty` for the empty
  buffer, or a `Workbook` holding the sheet name, the header row, the grid
  of `Cell`s (`Text` for the label, `Num`, `Blank` for `""`) and the column
  widths keyed by the code point `chr(65 + i)` names.
- The row loop is `Exporter.BuildRows` and the width loop is
  `Exporter.Worksheet.AdjustColumnWidths`, a method of a class whose
  width map it updates in place. Both are proved against the
  specification function `Exporter.Render`. `Exporter.GenerateExcel`
  composes them.
- `sorted(keys, reverse=True)` is `PyStr.SortedDesc`. It compares strings
  code point by code point, a proper prefix first, as Python does.
- The record's `json_data` blob is a JSON document tree (`JsonDoc.Json`). `EncodeTable`
  plays `json.dumps` and `DecodeTable` plays `json.loads` followed by
  reading the dict back. Their round trip is proved
  (`JsonDoc.DecodeEncodeTable`), not assumed.

The code has no validator, always uses one sheet name, and its record
default for units differs from the fixture's:

- Nothing validates or clamps confidences, and nothing normalises year
  labels. The fixture's labels and confidences are merely well formed, as
  proved about it.
- The sheet is always named "Financials", whatever the statement is.
- The record's default units are "Cr", while the fixture reports
  "Millions".

## Model

| member | source | states |
|---|---|---|
| `PyStr.SortedDesc` | backend/exporter.py:12 | the sorted keys are exactly the set's elements, each once, in strictly descending Python string order |
| `PyStr.DescendingUnique` | backend/exporter.py:12 | two strictly descending sequences with the same elements are equal, so the descending order of a key set is unique |
| `PyStr.SortedDescCharacterized` | backend/exporter.py:12 | a sequence is `sorted(s, reverse=True)` if and only if it is strictly descending and holds exactly the elements of s |
| `PyStr.BelowTotal` | backend/exporter.py:12 | Python's string order is total: two different strings are ordered one way or the other |
| `PyStr.BelowTransitive` | backend/exporter.py:12 | Python's string order is transitive |
| `PyStr.BelowAt` | backend/exporter.py:12 | strings agreeing on a prefix are ordered by the first code point where they differ (so "FY 23" < "FY 24") |
| `Exporter.YearColumns` | backend/exporter.py:12 | the year columns hold exactly the first item's `values` keys, in strictly descending order |
| `Exporter.CellFor` | backend/exporter.py:19-20 | a cell is blank exactly when the year is absent or null, and is `Num(x)` exactly when the item maps the year to x |
| `Exporter.RowFor` | backend/exporter.py:16-21 | a row is the item's label followed by one cell per year column, in header order |
| `Exporter.WidthsFor` | backend/exporter.py:34-35 | after n columns, column letter i maps to 25 for i = 0 and 15 otherwise, with exactly n entries |
| `Exporter.Worksheet.AdjustColumnWidths` | backend/exporter.py:34-35 | the loop adds exactly the widths of the first n columns to the worksheet's width map |
| `Exporter.Rows` | backend/exporter.py:15-21 | the grid has one row per item, row i being item i laid out against the year columns |
| `Exporter.BuildRows` | backend/exporter.py:15-21 | the loop yields one row per item, in input order, row i laid out from item i against the year columns |
| `Exporter.FormatColumns` | backend/exporter.py:29-35 | formatting a freshly written sheet with n columns leaves exactly the widths of those n columns |
| `Exporter.GenerateExcel` | backend/exporter.py:5-38 | the method produces exactly the artifact `Render` specifies: empty buffer without items, else header, rows and widths |
| `Exporter.RenderEmptyIff` | backend/exporter.py:7-9 | the artifact is empty if and only if `items` is missing or empty |
| `Exporter.RenderHeader` | backend/exporter.py:12 | the header is "Particulars" followed by exactly the first item's year keys, strictly descending |
| `Exporter.RenderHeaderUnique` | backend/exporter.py:12 | any strictly descending arrangement of the first item's keys is the header's year part |
| `Exporter.RenderColumnsFromFirstItem` | backend/exporter.py:12-19 | tables whose first items share a key set get the same header, and a year absent from the first item is never a column |
| `Exporter.RenderRows` | backend/exporter.py:15-21 | there is one row per item; row i has one cell per header column and starts with item i's label |
| `Exporter.RenderedCell` | backend/exporter.py:16-21 | the cell in row i under header column j + 1 is item i's cell for that column's year |
| `Exporter.RenderCell` | backend/exporter.py:19-20 | the cell under a year is the item's number when it has a non-null one, and blank if and only if the year is absent or null |
| `Exporter.NoBlankWhenComplete` | backend/exporter.py:18-20 | when every item has non-null values for all of the first item's years, no cell is blank |
| `Exporter.CompleteTableRender` | backend/exporter.py:12-21 | such a complete table renders with the given descending years as header, one labelled row per item and no blank cell |
| `Exporter.RenderWidths` | backend/exporter.py:34-35 | column 0 is 25 wide, every other header column 15, with one width per header column |
| `Exporter.ColumnLetterValid` | backend/exporter.py:33-35 | every width key of a rendered sheet is a column letter A..Z if and only if the header has at most 26 columns |
| `Exporter.WidthKeysAreLetters` | backend/exporter.py:34-35 | the keys `chr(65 + i)` set for the first n columns are all letters A..Z if and only if n <= 26 |
| `Exporter.RevenueWithNullScenario` | backend/exporter.py:12-35 | a table whose only item is "Revenue" with 100 for FY 24 and null for FY 23 gives header Particulars, FY 24, FY 23, the row Revenue, 100, blank, and widths 25, 15, 15 |
| `JsonDoc.DecodeEncodeItems` | backend/models.py:30 | reading back the encoded item list gives the same items |
| `JsonDoc.DecodeEncodeTable` | backend/models.py:30 | reading back the JSON document written for a table dict gives the same dict |
| `Models.NewRecord` | backend/models.py:6-14 | a fresh record has no id, accuracy 0, item count 0, currency "INR" and units "Cr" |
| `Models.MeanConfidence` | backend/models.py:22 | the mean is exactly 0 with no items, and otherwise times the item count equals the confidence sum |
| `Models.FromData` | backend/models.py:20-31 | no id yet, filename unchanged, count = number of items, accuracy = mean confidence, currency and units copied or defaulted to "INR"/"Cr", and the blob decodes back to the input |
| `Models.GetDataFromData` | backend/models.py:16-17 | `get_data` on a record built from `data` reads back `data` |
| `Models.SummaryMatchesBlob` | backend/models.py:20-31 | the summary fields equal those recomputed from the decoded blob |
| `Models.FromDataOfBareDict` | backend/models.py:10-29 | a dict without items, currency or units yields exactly the record defaults |
| `Models.ConfidenceSumUpdate` | backend/models.py:22 | replacing item i changes the confidence sum by exactly the difference of the two confidences |
| `Models.ConfidenceSumDrop` | backend/models.py:22 | removing item i lowers the confidence sum by exactly its confidence |
| `Models.MissingConfidenceCountsAsZero` | backend/models.py:22 | an item without confidence adds 0 to the sum but stays in the denominator |
| `Models.ConfidenceSumBounds` | backend/models.py:22 | if every confidence lies in [lo, hi], the sum lies in [lo·n, hi·n] |
| `Models.AccuracyWithin` | backend/models.py:22 | with items whose confidences lie in [lo, hi], the accuracy lies in [lo, hi] |
| `Models.AccuracyInUnitInterval` | backend/models.py:22 | if every present confidence lies in [0, 1], the accuracy does, and it is exactly 0 with no items |
| `Extractor.Yearly` | backend/extractor.py:25-53 | each fixture row's values dict has exactly the six keys FY 25..FY 20, each mapped to the given number, none null |
| `Extractor.ExtractFinancialData` | backend/extractor.py:18-60 | the statement has 21 items, currency "INR" and units "Millions" |
| `Extractor.ExtractIgnoresText` | backend/extractor.py:18-60 | any two input texts give equal statements |
| `Extractor.FixtureOrder` | backend/extractor.py:23-54 | the rows run from "Revenue from ops" first to "Profit After Tax" last |
| `Extractor.RevenueRowsWellFormed` | backend/extractor.py:25-27 | the revenue rows have the six years, no null, confidence in [0.92, 0.99], a label, no note |
| `Extractor.MaterialRowsWellFormed` | backend/extractor.py:30-34 | the same for the materials rows |
| `Extractor.EmployeeRowsWellFormed` | backend/extractor.py:37-39 | the same for the employee-cost rows |
| `Extractor.OtherExpenseRowsWellFormed` | backend/extractor.py:42-47 | the same for the other-expense rows |
| `Extractor.ProfitabilityRowsWellFormed` | backend/extractor.py:50-53 | the same for the profitability rows |
| `Extractor.FixtureWellFormed` | backend/extractor.py:23-54 | every one of the 21 rows has the six years, no null, confidence in [0.92, 0.99], a non-empty label and no note |
| `Extractor.FixtureLabelsAndConfidences` | backend/extractor.py:25-53 | every year key of every row of the statement is "FY " plus two digits, and every confidence lies in [0, 1] |
| `Extractor.ItemToDict` | backend/main.py:43 | an item's dict keeps its label, values and note and always carries its confidence |
| `Extractor.ToDict` | backend/main.py:43 | a statement's dict has every key present and item i's dict at position i |
| `Pipeline.FixtureColumnsDescending` | backend/exporter.py:12 | FY 25, FY 24, ..., FY 20 is strictly descending and holds exactly the fixture's years |
| `Pipeline.FixtureRecord` | backend/models.py:20-31 | a record built from the fixture's dict has 21 items, "INR", "Millions", an accuracy in [0.92, 0.99] and a blob that reads back as the fixture |
| `Pipeline.FixtureDictComplete` | backend/extractor.py:25-53 | the fixture's dict form has the descending fixture years as first keys and every item complete for them |
| `Pipeline.FixtureShapedSpreadsheet` | backend/exporter.py:12-21 | a 21-row fixture-shaped statement renders with header Particulars, FY 25..FY 20, 21 rows of 7 cells labelled by their items, and no blank |
| `Pipeline.FixtureSpreadsheet` | backend/exporter.py:5-38 | rendering the fixture gives header Particulars, FY 25..FY 20, 21 rows and no blank cell |

## Left out

- The workbook bytes (pandas `DataFrame`, openpyxl `ExcelWriter`, `seek`) are not modelled, only the logical header, grid, sheet name and widths.
- The JSON text between `json.dumps` and `json.loads` is not modelled; the record's blob is the JSON document tree, and `loads(dumps(d))` giving back `d` at the text level is taken as given.
- A JSON `null` for `items`, `currency` or `units` is not distinguished from a missing key. In the source a null `items` gives the empty buffer in the renderer, but `len(None)` raises in `from_data`.
- A null `confidence` (a `TypeError` in `sum`), an item without `particulars` or `values` (a `KeyError` in the renderer) and keys beyond `items`/`currency`/`units` are not representable in the dict model.
- A year key spelled exactly "Particulars" is not modelled. It would overwrite the label in the row dict and merge the two columns.
- What openpyxl does with a width set under a non-letter key (27 or more columns) is not modelled. `Exporter.ColumnLetterValid` only states when every key is a letter.
- An item dict without a `notes` key and one whose `notes` is null are the same value in the model (`notes == None`). The JSON document always writes `"notes": null` for it, where `json.dumps` would leave an absent key out.
- The `DEBUG` line that `extract_financial_data` prints to standard output (`backend/extractor.py:20`) is not modelled.
- The extract-then-`from_data` composition exists only in `Pipeline`: no route of `backend/main.py` builds or saves a record, and `create_db_and_tables` is never called.
- The record's `timestamp` (`datetime.utcnow`), id assignment by the store, and the SQLite and session plumbing (`backend/database.py`, `backend/check_db.py`) are left out.
- `backend/processor.py` (pdfplumber text and table extraction) and the FastAPI routes in `backend/main.py` (CORS, upload to a temporary file and its removal, the `.pdf` suffix check, streaming) are I/O plumbing and are left out.
- IEEE floating-point rounding is not modelled: all sums and the mean are exact reals.
- `Pipeline.FixtureSpreadsheet`: does not itself state each row's label, because spelling that out on the concrete 21-row fixture is too large for the solver. `Pipeline.FixtureShapedSpreadsheet` states it for every fixture-shaped statement, and `Extractor.FixtureWellFormed` shows the fixture is one.
