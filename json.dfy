/** JSON values as the group loader sees them through QJsonObject, QJsonArray
    and QJsonValue, with the lenient Qt conversions it relies on. */
module Json {
  import opened Wrappers


  datatype Json =
    | Null
    | Bool(b: bool)
    | Number(n: real)
    | Str(s: string)
    | Arr(items: seq<Json>)
    | Obj(fields: map<string, Json>)

  type Object = map<string, Json>

  /** QJsonObject::value: the value stored under key, or Undefined (None). */
  function Value(obj: Object, key: string): (v: Option<Json>)
    ensures v.Some? <==> key in obj
    ensures key in obj ==> v.value == obj[key]
  {
    if key in obj then Some(obj[key]) else None
  }

  /** QJsonValue::toArray: the items of an array, the empty array otherwise. */
  function ToArray(v: Option<Json>): (items: seq<Json>)
    ensures v.Some? && v.value.Arr? ==> items == v.value.items
    ensures !(v.Some? && v.value.Arr?) ==> items == []
  {
    match v
    case Some(Arr(items)) => items
    case _ => []
  }

  /** QJsonValue::toObject: the members of an object, the empty object otherwise. */
  function ToObject(v: Json): (obj: Object)
    ensures v.Obj? ==> obj == v.fields
    ensures !v.Obj? ==> obj == map[]
  {
    if v.Obj? then v.fields else map[]
  }

  /** QVariant::toString on a variant holding a JSON value: the text of a
      JSON string; Qt's conversion fails for every other kind, giving "". */
  function ToText(v: Json): (s: string)
    ensures v.Str? ==> s == v.s
    ensures !v.Str? ==> s == ""
  {
    if v.Str? then v.s else ""
  }
}
