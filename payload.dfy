/**
 * The table-shaped dict that the exporter and the record builder receive
 * (`{"items": [...], "currency": ..., "units": ...}`), as a value.
 *
 * An `Option` field is a key that may be absent from the dict: `None` means
 * the key is missing, so `data.get(key, default)` yields the default.
 */
module Payload {
  import opened Optional

  /** One element of `data["items"]`. A value of `None` in `values` is a JSON null. */
  datatype ItemDict = ItemDict(
    particulars: string,
    values: map<string, Option<real>>,
    confidence: Option<real>,
    notes: Option<string>)

  datatype TableDict = TableDict(
    items: Option<seq<ItemDict>>,
    currency: Option<string>,
    units: Option<string>)

  /** `data.get("items", [])` */
  function ItemsOf(data: TableDict): (items: seq<ItemDict>)
    ensures data.items.Some? ==> items == data.items.value
    ensures data.items.None? ==> items == []
  {
    data.items.GetOr([])
  }
}
