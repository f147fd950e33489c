/**
 * The persisted extraction record (`ExtractionRecord`) and its construction
 * from a table dict.
 *
 * The summary fields (`accuracy`, `line_item_count`, `currency`, `units`) are
 * computed once from the dict; the dict itself is kept whole as a JSON
 * document that `GetData` hands back.
 */
module Models {
  import opened Optional
  import opened Payload
  import opened JsonDoc

  /** `id` is `None` until the store assigns one; the creation timestamp is not modelled. */
  datatype ExtractionRecord = ExtractionRecord(
    id: Option<int>,
    filename: string,
    accuracy: real,
    lineItemCount: int,
    currency: string,
    units: string,
    jsonData: Json)

  const DefaultCurrency := "INR"
  const DefaultUnits := "Cr"

  /** A record built from its two required fields, every other field at its declared default. */
  function NewRecord(filename: string, jsonData: Json): (r: ExtractionRecord)
    ensures r.id == None && r.filename == filename && r.jsonData == jsonData
    ensures r.accuracy == 0.0 && r.lineItemCount == 0
    ensures r.currency == "INR" && r.units == "Cr"
  {
    ExtractionRecord(None, filename, 0.0, 0, DefaultCurrency, DefaultUnits, jsonData)
  }

  /** `item.get("confidence", 0)` */
  function ConfidenceOf(item: ItemDict): real
  {
    item.confidence.GetOr(0.0)
  }

  /** `sum(item.get("confidence", 0) for item in items)`, added left to right. */
  function ConfidenceSum(items: seq<ItemDict>): real
  {
    if items == [] then 0.0 else ConfidenceSum(items[..|items| - 1]) + ConfidenceOf(items[|items| - 1])
  }

  /** `sum(...) / len(items) if items else 0` */
  function MeanConfidence(items: seq<ItemDict>): (mean: real)
    ensures items == [] ==> mean == 0.0
    ensures items != [] ==> mean * |items| as real == ConfidenceSum(items)
  {
    if items != [] then ConfidenceSum(items) / |items| as real else 0.0
  }

  /** `ExtractionRecord.from_data(filename, data)` */
  function FromData(filename: string, data: TableDict): (r: ExtractionRecord)
    ensures r.id == None && r.filename == filename
    ensures r.lineItemCount == |ItemsOf(data)|
    ensures r.accuracy == MeanConfidence(ItemsOf(data))
    ensures r.currency == data.currency.GetOr("INR")
    ensures r.units == data.units.GetOr("Cr")
    ensures DecodeTable(r.jsonData) == Some(data)
  {
    DecodeEncodeTable(data);
    var items := ItemsOf(data);
    ExtractionRecord(
      None,
      filename,
      MeanConfidence(items),
      |items|,
      data.currency.GetOr(DefaultCurrency),
      data.units.GetOr(DefaultUnits),
      EncodeTable(data))
  }

  /** `record.get_data()`: the stored document, read back. */
  function GetData(r: ExtractionRecord): Json
  {
    r.jsonData
  }

  // ---- properties ----

  /** Reading back a record built from `data` yields `data` again. */
  lemma GetDataFromData(filename: string, data: TableDict)
    ensures DecodeTable(GetData(FromData(filename, data))) == Some(data)
  {
  }

  /**
   * The summary is a faithful cache of the blob: decoding the stored
   * document and summarising it again gives the stored count and accuracy.
   */
  lemma SummaryMatchesBlob(filename: string, data: TableDict)
    ensures var r := FromData(filename, data);
      DecodeTable(GetData(r)).Some? &&
      var d := DecodeTable(GetData(r)).value;
      r.lineItemCount == |ItemsOf(d)| && r.accuracy == MeanConfidence(ItemsOf(d))
      && r.currency == d.currency.GetOr(DefaultCurrency) && r.units == d.units.GetOr(DefaultUnits)
  {
  }

  /** A dict with no items, currency or units gives exactly the default record. */
  lemma FromDataOfBareDict(filename: string)
    ensures FromData(filename, TableDict(None, None, None))
         == NewRecord(filename, EncodeTable(TableDict(None, None, None)))
  {
  }

  /** Summing a sequence whose item i is replaced changes the sum by the difference of the two confidences. */
  lemma {:induction false} ConfidenceSumUpdate(items: seq<ItemDict>, i: nat, item: ItemDict)
    requires i < |items|
    ensures ConfidenceSum(items[i := item]) == ConfidenceSum(items) - ConfidenceOf(items[i]) + ConfidenceOf(item)
    decreases |items|
  {
    var n := |items| - 1;
    var updated := items[i := item];
    assert updated[..n] == if i < n then items[..n][i := item] else items[..n];
    if i < n {
      ConfidenceSumUpdate(items[..n], i, item);
    }
  }

  /**
   * An item without a confidence adds 0 to the sum but still counts in the
   * denominator: the accuracy is the one it would have with confidence 0.
   */
  lemma MissingConfidenceCountsAsZero(items: seq<ItemDict>, i: nat)
    requires i < |items| && items[i].confidence == None
    ensures MeanConfidence(items) == MeanConfidence(items[i := items[i].(confidence := Some(0.0))])
    ensures MeanConfidence(items) == ConfidenceSum(items[..i] + items[i + 1..]) / |items| as real
  {
    ConfidenceSumUpdate(items, i, items[i].(confidence := Some(0.0)));
    ConfidenceSumDrop(items, i);
  }

  /** Dropping item i removes exactly its confidence from the sum. */
  lemma {:induction false} ConfidenceSumDrop(items: seq<ItemDict>, i: nat)
    requires i < |items|
    ensures ConfidenceSum(items[..i] + items[i + 1..]) == ConfidenceSum(items) - ConfidenceOf(items[i])
    decreases |items|
  {
    var n := |items| - 1;
    var rest := items[..i] + items[i + 1..];
    if i < n {
      assert rest[..|rest| - 1] == items[..n][..i] + items[..n][i + 1..];
      assert rest[|rest| - 1] == items[n];
      ConfidenceSumDrop(items[..n], i);
    } else {
      assert rest == items[..n];
    }
  }

  /** When every confidence lies in [lo, hi], their sum lies in [lo * n, hi * n] for n items. */
  lemma {:induction false} ConfidenceSumBounds(items: seq<ItemDict>, lo: real, hi: real)
    requires forall i :: 0 <= i < |items| ==> lo <= ConfidenceOf(items[i]) <= hi
    ensures lo * |items| as real <= ConfidenceSum(items) <= hi * |items| as real
    decreases |items|
  {
    if items != [] {
      var n := |items| - 1;
      ConfidenceSumBounds(items[..n], lo, hi);
      assert lo <= ConfidenceOf(items[n]) <= hi;
    }
  }

  /** The accuracy of a non-empty table lies between the smallest and largest confidence bound. */
  lemma AccuracyWithin(filename: string, data: TableDict, lo: real, hi: real)
    requires ItemsOf(data) != []
    requires forall i :: 0 <= i < |ItemsOf(data)| ==> lo <= ConfidenceOf(ItemsOf(data)[i]) <= hi
    ensures lo <= FromData(filename, data).accuracy <= hi
  {
    var items := ItemsOf(data);
    var n := |items| as real;
    ConfidenceSumBounds(items, lo, hi);
    var mean := MeanConfidence(items);
    assert mean * n == ConfidenceSum(items);
    assert lo * n <= mean * n <= hi * n;
  }

  /** If every present confidence lies in [0, 1], the accuracy lies in [0, 1]; with no items it is exactly 0. */
  lemma AccuracyInUnitInterval(filename: string, data: TableDict)
    requires forall i :: 0 <= i < |ItemsOf(data)| ==>
      ItemsOf(data)[i].confidence.Some? ==> 0.0 <= ItemsOf(data)[i].confidence.value <= 1.0
    ensures 0.0 <= FromData(filename, data).accuracy <= 1.0
    ensures ItemsOf(data) == [] ==> FromData(filename, data).accuracy == 0.0
  {
    if ItemsOf(data) != [] {
      AccuracyWithin(filename, data, 0.0, 1.0);
    }
  }
}
