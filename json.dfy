/** The request body as the HTTP layer hands it to a validator: a parsed JSON value. */
module Json {
  import opened Wrappers

  /** JSON numbers are modelled by their integer value; fractions are not represented. */
  datatype Value =
    | JNull
    | JBool(b: bool)
    | JNum(n: int)
    | JStr(s: string)
    | JArr(items: seq<Value>)
    | JObj(fields: map<string, Value>)

  /** `Number.MAX_SAFE_INTEGER`: Joi refuses numbers outside the safe range unless told otherwise. */
  const MaxSafeInteger: int := 9007199254740991

  predicate IsSafe(n: int)
  {
    -MaxSafeInteger <= n <= MaxSafeInteger
  }

  /** The value stored under `key`, or None when the key is absent (JavaScript's `undefined`). */
  function Lookup(fields: map<string, Value>, key: string): Option<Value>
  {
    if key in fields then Some(fields[key]) else None
  }
}
