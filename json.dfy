// JSON values as the runtime stores them in settings, plugin configuration and logs.

module Json {
  import opened Wrappers

  /** A JSON value. Objects are keyed dictionaries; numbers are integers in this model. */
  datatype Value =
    | Null
    | Bool(b: bool)
    | Num(n: int)
    | Str(s: string)
    | Arr(items: seq<Value>)
    | Obj(fields: map<string, Value>)

  /** JavaScript truthiness of a JSON value: `null`, `false`, `0` and `""` are falsy. */
  predicate Truthy(v: Value)
  {
    match v
    case Null => false
    case Bool(b) => b
    case Num(n) => n != 0
    case Str(s) => s != ""
    case Arr(_) => true
    case Obj(_) => true
  }

  /** The empty object `{}`. */
  const EmptyObject: Value := Obj(map[])

  /** A string field of an object record, or absent when missing or of another type. */
  function StringField(record: map<string, Value>, key: string): (r: Option<string>)
    ensures r.Some? <==> key in record && record[key].Str?
    ensures r.Some? ==> record[key] == Str(r.value)
  {
    if key in record && record[key].Str? then Some(record[key].s) else None
  }
}
