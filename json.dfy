// JSON values as Python's json module hands them to the program: objects are
// dicts, arrays are lists, integers and floats are distinct number kinds.
module Json {
  datatype Json =
    | JNull
    | JBool(b: bool)
    | JInt(i: int)
    | JReal(r: real)
    | JStr(s: string)
    | JArr(items: seq<Json>)
    | JObj(fields: map<string, Json>)

  /** dict.get(key, default) on a JSON object. */
  function Get(obj: map<string, Json>, key: string, default: Json): (r: Json)
    ensures key in obj ==> r == obj[key]
    ensures key !in obj ==> r == default
  {
    if key in obj then obj[key] else default
  }
}
