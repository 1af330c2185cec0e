/** JSON documents as the `json` module hands them to the server: objects
    are maps (the insertion order of Python dictionaries is not kept), and
    numbers are integers. Parsing and printing are a parameter. */
module Documents {
  import opened Wrappers

  datatype Json =
    | Null
    | Bool(b: bool)
    | Number(n: int)
    | Str(s: string)
    | Array(items: seq<Json>)
    | Object(fields: map<string, Json>)

  /** `json.load` (`None` where it raises) and `json.dump(..., indent=2)`. */
  datatype JsonCodec = JsonCodec(load: string -> Option<Json>, dump: Json -> string)

  /** Loading what was dumped gives the document back. */
  ghost predicate RoundTrips(codec: JsonCodec) {
    forall j :: codec.load(codec.dump(j)) == Some(j)
  }

  /** Python's `len()` on a loaded value; `None` where it raises. */
  function Length(j: Json): (r: Option<nat>)
    ensures r.Some? <==> j.Str? || j.Array? || j.Object?
    ensures j.Object? ==> r == Some(|j.fields|)
  {
    match j
    case Str(s) => Some(|s|)
    case Array(items) => Some(|items|)
    case Object(fields) => Some(|fields|)
    case _ => None
  }

  /** `d.get(key, {})` on a loaded value; `None` where it raises. */
  function GetOrEmpty(j: Json, key: string): Option<Json> {
    if j.Object? then Some(if key in j.fields then j.fields[key] else Object(map[])) else None
  }
}
