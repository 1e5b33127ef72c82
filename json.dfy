/**
 * An abstract stand-in for `serde_json`: the `Value` tree that every
 * settings value is converted to and from, and the library's error type.
 * How a concrete Rust type maps to a `Value` is serde's business; the model
 * receives such conversions as function parameters.
 */
module Json {

  /** `serde_json::Value`. Numbers are kept to integers. */
  datatype Json =
    | Null
    | Bool(b: bool)
    | Number(n: int)
    | String(s: string)
    | Array(items: seq<Json>)
    | Object(fields: map<string, Json>)

  /** `serde_json::Error`, kept opaque: only its message is observable. */
  datatype SerError = SerError(message: string)
}
