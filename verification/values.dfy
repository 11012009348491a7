/**
 * The dynamically typed values the client handles: parsed TOML documents from
 * the configuration files and decoded JSON payloads from the broker. Floating
 * point numbers and TOML date-times are not represented.
 */
module Values {

  datatype Value =
    | Null
    | Bool(b: bool)
    | Int(i: int)
    | Str(s: string)
    | Arr(items: seq<Value>)
    | Table(fields: map<string, Value>)
}
