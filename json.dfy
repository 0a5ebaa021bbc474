/**
 * The untyped structured value every decoder starts from (serde_json's `Value`),
 * field lookup on it, and the errors a container decoder reports.
 */
module Json {
  import opened Wrappers

  /** A JSON value. Numbers are kept as integers: no decoder here inspects them. */
  datatype Json =
    | Null
    | Bool(b: bool)
    | Number(n: int)
    | Str(s: string)
    | Array(items: seq<Json>)
    | Object(fields: map<string, Json>)

  /** `Value::get` with a string key: the field of an object; nothing for any other value. */
  function Get(v: Json, key: string): Option<Json>
  {
    if v.Object? && key in v.fields then Some(v.fields[key]) else None
  }

  /** `value.get(key).is_some()`: the field is present, whatever its value (null included). */
  predicate Has(v: Json, key: string)
  {
    Get(v, key).Some?
  }

  /** Why a container decode failed. */
  datatype DecodeError =
    | MissingType              // no "type" field: `missing_field("type")`
    | BadType                  // the "type" value is not a string, so it is no `EventType`
    | LeafError(cause: string) // the chosen record type failed to decode; its message is kept
    | NotRoomEvent             // a known type that `RoomEvent` has no member for
    | NotStateEvent            // a known type that `StateEvent` has no member for
}
