/** The documents that Python's `json.loads` produces. The decoder itself is not
    modelled: callers receive it as a function from text to `Option<Value>`,
    `None` standing for a `JSONDecodeError`. */
module Json {

  /** A decoded JSON document: `null`, a boolean, a number, a string, a list or a dict. */
  datatype Value =
    | JNull
    | JBool(b: bool)
    | JNumber(n: real)
    | JString(s: string)
    | JArray(items: seq<Value>)
    | JObject(fields: map<string, Value>)
}
