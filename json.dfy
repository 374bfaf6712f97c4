/**
 * JSON values and the JSON libraries the adapters call. The libraries
 * (partial-json's `parse`, `repairJson`, `JSON.parse`, `JSON.stringify`,
 * a zod schema's `parse`) are not modelled: they are carried as total
 * functions that may fail, chosen by the caller.
 */
module Json {
  import opened Wrappers

  datatype JsonValue =
    | JNull
    | JBool(b: bool)
    | JNumber(n: int)
    | JString(s: string)
    | JArray(items: seq<JsonValue>)
    | JObject(fields: map<string, JsonValue>)

  /** The value `{}`. */
  const EmptyObject: JsonValue := JObject(map[])

  /** The value `[]`. */
  const EmptyArray: JsonValue := JArray([])

  /** JavaScript truthiness of a JSON value (a parsed number is never NaN). */
  predicate Truthy(v: JsonValue) {
    match v
    case JNull => false
    case JBool(b) => b
    case JNumber(n) => n != 0
    case JString(s) => s != []
    case _ => true
  }

  /** JavaScript's `o ?? d` on an optional JSON value: a missing value and `null` both give `d`. */
  function Coalesced(o: Option<JsonValue>, d: JsonValue): (r: JsonValue)
    ensures o.None? || o.value.JNull? ==> r == d
    ensures o.Some? && !o.value.JNull? ==> r == o.value
  {
    if o.None? || o.value.JNull? then d else o.value
  }

  /** A member of an object, `undefined` (None) for anything else. */
  function Field(v: JsonValue, name: string): Option<JsonValue> {
    if v.JObject? && name in v.fields then Some(v.fields[name]) else None
  }

  /** The JSON libraries; `None` stands for a thrown error. */
  datatype JsonLib = JsonLib(
    partialParse: string -> Option<JsonValue>,
    repair: string -> Option<string>,
    parse: string -> Option<JsonValue>,
    stringify: JsonValue -> string)

  /** A zod schema's `parse`: the validated value, or `None` when validation throws. */
  type Schema = JsonValue -> Option<JsonValue>

  /** `schema.parse(JSON.parse(repairJson(text, {extractJson: true})))`: the strict final
      step every structured-output path ends with. */
  function RepairParseValidate(lib: JsonLib, schema: Schema, text: string): (r: Option<JsonValue>)
    ensures r.Some? ==> exists repaired, parsed ::
      lib.repair(text) == Some(repaired) && lib.parse(repaired) == Some(parsed) && schema(parsed) == r
    ensures r.None? <==> (lib.repair(text).None?
                         || lib.parse(lib.repair(text).value).None?
                         || schema(lib.parse(lib.repair(text).value).value).None?)
  {
    match lib.repair(text)
    case None => None
    case Some(repaired) =>
      match lib.parse(repaired)
      case None => None
      case Some(parsed) => schema(parsed)
  }

  /** partial-json's `parse`, degrading to `{}` when it throws (the streaming intermediate step). */
  function PartialOrEmpty(lib: JsonLib, text: string): (r: JsonValue)
    ensures lib.partialParse(text).Some? ==> r == lib.partialParse(text).value
    ensures lib.partialParse(text).None? ==> r == EmptyObject
  {
    lib.partialParse(text).GetOr(EmptyObject)
  }
}
