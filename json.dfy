/**
 * The JSON libraries the relay calls (Foundation's JSONSerialization and
 * JavaScript's JSON.parse) are not modelled; what they return is. A decoder
 * maps a text to the JSON value it denotes, or to None when the text is not
 * JSON it accepts.
 */
module Json {
  import opened Common

  datatype Value =
    | Null
    | Bool(b: bool)
    | Num(literal: string)
    | Str(s: string)
    | Arr(items: seq<Value>)
    | Obj(fields: map<string, Value>)

  type Decoder = string -> Option<Value>
}
