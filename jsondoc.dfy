/**
 * The JSON document a table dict is stored as (`json.dumps` / `json.loads`).
 *
 * The document is kept as a tree; the text between `dumps` and `loads` is
 * not modelled. `EncodeTable` is what `dumps` writes, `DecodeTable` reads a
 * document back into a table dict, and `DecodeEncodeTable` proves that the
 * pair round-trips.
 */
module JsonDoc {
  import opened Optional
  import opened Payload

  datatype Json =
    | JNull
    | JNum(num: real)
    | JStr(str: string)
    | JArr(elems: seq<Json>)
    | JObj(fields: map<string, Json>)

  // ---- encoding ----

  function EncodeValue(v: Option<real>): (j: Json)
    ensures j.JNull? <==> v.None?
  {
    match v
    case Some(x) => JNum(x)
    case None => JNull
  }

  function EncodeValues(values: map<string, Option<real>>): (fields: map<string, Json>)
    ensures fields.Keys == values.Keys
  {
    map y | y in values :: EncodeValue(values[y])
  }

  function EncodeNotes(notes: Option<string>): Json
  {
    match notes
    case Some(s) => JStr(s)
    case None => JNull
  }

  /** A key that is written only when the dict holds it. */
  function OptionalField(key: string, v: Option<Json>): map<string, Json>
  {
    match v
    case Some(j) => map[key := j]
    case None => map[]
  }

  function EncodeItem(item: ItemDict): Json
  {
    JObj(map[
      "particulars" := JStr(item.particulars),
      "values" := JObj(EncodeValues(item.values)),
      "notes" := EncodeNotes(item.notes)]
      + OptionalField("confidence", if item.confidence.Some? then Some(JNum(item.confidence.value)) else None))
  }

  function EncodeItems(items: seq<ItemDict>): (js: seq<Json>)
    ensures |js| == |items|
  {
    if items == [] then [] else [EncodeItem(items[0])] + EncodeItems(items[1..])
  }

  function EncodeTable(data: TableDict): Json
  {
    JObj(
      OptionalField("items", if data.items.Some? then Some(JArr(EncodeItems(data.items.value))) else None)
      + OptionalField("currency", if data.currency.Some? then Some(JStr(data.currency.value)) else None)
      + OptionalField("units", if data.units.Some? then Some(JStr(data.units.value)) else None))
  }

  // ---- decoding ----

  function DecodeValue(j: Json): Option<Option<real>>
  {
    match j
    case JNull => Some(None)
    case JNum(x) => Some(Some(x))
    case _ => None
  }

  function DecodeValues(fields: map<string, Json>): (r: Option<map<string, Option<real>>>)
    ensures r.Some? ==> r.value.Keys == fields.Keys
  {
    if forall y :: y in fields ==> DecodeValue(fields[y]).Some? then
      Some(map y | y in fields :: DecodeValue(fields[y]).value)
    else
      None
  }

  function DecodeNotes(j: Json): Option<Option<string>>
  {
    match j
    case JNull => Some(None)
    case JStr(s) => Some(Some(s))
    case _ => None
  }

  /** A key that may be absent: `Some(None)` when absent, `None` when present with the wrong shape. */
  function DecodeOptionalNum(fields: map<string, Json>, key: string): Option<Option<real>>
  {
    if key !in fields then Some(None)
    else if fields[key].JNum? then Some(Some(fields[key].num))
    else None
  }

  function DecodeOptionalStr(fields: map<string, Json>, key: string): Option<Option<string>>
  {
    if key !in fields then Some(None)
    else if fields[key].JStr? then Some(Some(fields[key].str))
    else None
  }

  function DecodeItem(j: Json): Option<ItemDict>
  {
    if !j.JObj? then None
    else
      var f := j.fields;
      if "particulars" !in f || !f["particulars"].JStr? then None
      else if "values" !in f || !f["values"].JObj? then None
      else
        var values := DecodeValues(f["values"].fields);
        var confidence := DecodeOptionalNum(f, "confidence");
        var notes := if "notes" in f then DecodeNotes(f["notes"]) else Some(None);
        if values.None? || confidence.None? || notes.None? then None
        else Some(ItemDict(f["particulars"].str, values.value, confidence.value, notes.value))
  }

  function DecodeItems(js: seq<Json>): (r: Option<seq<ItemDict>>)
    ensures r.Some? ==> |r.value| == |js|
  {
    if js == [] then Some([])
    else
      var head := DecodeItem(js[0]);
      var tail := DecodeItems(js[1..]);
      if head.None? || tail.None? then None else Some([head.value] + tail.value)
  }

  function DecodeTable(j: Json): Option<TableDict>
  {
    if !j.JObj? then None
    else
      var f := j.fields;
      var items :=
        if "items" !in f then Some(None)
        else if !f["items"].JArr? then None
        else
          var decoded := DecodeItems(f["items"].elems);
          if decoded.None? then None else Some(Some(decoded.value));
      var currency := DecodeOptionalStr(f, "currency");
      var units := DecodeOptionalStr(f, "units");
      if items.None? || currency.None? || units.None? then None
      else Some(TableDict(items.value, currency.value, units.value))
  }

  // ---- round trip ----

  lemma DecodeEncodeValues(values: map<string, Option<real>>)
    ensures DecodeValues(EncodeValues(values)) == Some(values)
  {
    var fields := EncodeValues(values);
    assert forall y :: y in fields ==> DecodeValue(fields[y]) == Some(values[y]);
    var decoded := map y | y in fields :: DecodeValue(fields[y]).value;
    assert decoded.Keys == values.Keys;
    assert forall y :: y in decoded ==> decoded[y] == values[y];
    assert decoded == values;
  }

  lemma DecodeEncodeItem(item: ItemDict)
    ensures DecodeItem(EncodeItem(item)) == Some(item)
  {
    DecodeEncodeValues(item.values);
    var f := EncodeItem(item).fields;
    assert "particulars" in f && f["particulars"] == JStr(item.particulars);
    assert "values" in f && f["values"] == JObj(EncodeValues(item.values));
    assert "notes" in f && f["notes"] == EncodeNotes(item.notes);
    assert DecodeOptionalNum(f, "confidence") == Some(item.confidence);
  }

  lemma {:induction false} DecodeEncodeItems(items: seq<ItemDict>)
    ensures DecodeItems(EncodeItems(items)) == Some(items)
  {
    if items != [] {
      DecodeEncodeItem(items[0]);
      DecodeEncodeItems(items[1..]);
      assert EncodeItems(items)[1..] == EncodeItems(items[1..]);
      assert items == [items[0]] + items[1..];
    }
  }

  /** Reading back what `json.dumps` wrote gives the same table dict. */
  lemma DecodeEncodeTable(data: TableDict)
    ensures DecodeTable(EncodeTable(data)) == Some(data)
  {
    if data.items.Some? {
      DecodeEncodeItems(data.items.value);
    }
    var f := EncodeTable(data).fields;
    assert ("items" in f) == data.items.Some?;
    assert data.items.Some? ==> f["items"] == JArr(EncodeItems(data.items.value));
    assert DecodeOptionalStr(f, "currency") == Some(data.currency);
    assert DecodeOptionalStr(f, "units") == Some(data.units);
  }
}
