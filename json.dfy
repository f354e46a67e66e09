/** The JSON-like values that the backend's `to_dict` methods put into dictionaries. */
module Json {

  datatype Value =
    | Null
    | Bool(b: bool)
    | Str(s: string)
    | Int(i: int)
    | Object(fields: map<string, Value>)
}
