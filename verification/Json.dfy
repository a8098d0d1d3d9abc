/** JSON documents after decoding, and the type assertions with which the Go code reads them. */
module Json {
  import opened Results

  datatype Value =
    | Null
    | Bool(b: bool)
    | Number(n: real)
    | Str(s: string)
    | Arr(items: seq<Value>)
    | Obj(members: map<string, Value>)

  type Members = map<string, Value>

  /** A json.RawMessage: no bytes at all, bytes that are not JSON, or one JSON value. */
  datatype Raw = Empty | Malformed | Doc(value: Value)

  datatype DecodeError = NotAnObject

  /** Decoding into map[string]any: no bytes and null both leave the map empty. */
  function Decode(raw: Raw): Result<Members, DecodeError> {
    match raw
    case Empty => Ok(map[])
    case Malformed => Err(NotAnObject)
    case Doc(Null) => Ok(map[])
    case Doc(Obj(m)) => Ok(m)
    case Doc(_) => Err(NotAnObject)
  }

  /** `v, _ := x.(map[string]any)`: anything but an object reads as the empty map. */
  function MembersOf(v: Value): Members {
    if v.Obj? then v.members else map[]
  }

  /** `v, _ := x.([]any)`: anything but an array reads as the empty slice. */
  function ItemsOf(v: Value): seq<Value> {
    if v.Arr? then v.items else []
  }

  /** `s, _ := d[key].(string)`: a missing key or another type reads as "". */
  function TextAt(d: Members, key: string): string {
    if key in d && d[key].Str? then d[key].s else ""
  }

  function ItemsAt(d: Members, key: string): seq<Value> {
    if key in d then ItemsOf(d[key]) else []
  }

  function MembersAt(d: Members, key: string): Members {
    if key in d then MembersOf(d[key]) else map[]
  }
}
