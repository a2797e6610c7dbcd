/** The JSON values agent responses are parsed from, and that metadata records hold. */
module Json {

  /** A JSON value; an object is a map from keys to values, and a key that is
      absent stands for a property that is `undefined`. */
  datatype Value =
    | Null
    | Bool(b: bool)
    | Num(n: real)
    | Str(s: string)
    | Arr(items: seq<Value>)
    | Obj(fields: map<string, Value>)
}
