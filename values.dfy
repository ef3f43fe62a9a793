/** Values shared by the relay (JavaScript) and the backend (Python): decoded JSON,
    the two languages' notions of truthiness, and the error envelope both sides send. */
module Values {

  datatype Option<+T> = None | Some(value: T)

  datatype Result<+T, +E> = Ok(value: T) | Err(error: E)

  /** A decoded JSON value. Numbers written without fraction or exponent are `JInt`;
      the others are `JFloat` (Python decodes them as `float`; JavaScript makes no
      distinction, and the model never needs one there). */
  datatype Json =
    | JNull
    | JBool(b: bool)
    | JInt(i: int)
    | JFloat(r: real)
    | JStr(s: string)
    | JList(items: seq<Json>)
    | JObj(fields: map<string, Json>)

  /** Python's `bool(v)`: None, False, zero, and empty strings, lists and dicts are false. */
  predicate PyTruthy(v: Json)
  {
    match v
    case JNull => false
    case JBool(b) => b
    case JInt(i) => i != 0
    case JFloat(r) => r != 0.0
    case JStr(s) => s != ""
    case JList(items) => items != []
    case JObj(fields) => fields != map[]
  }

  /** JavaScript truthiness of a property read: `None` is `undefined`. Unlike Python,
      every array and every object is truthy, even an empty one. */
  predicate JsTruthy(v: Option<Json>)
  {
    match v
    case None => false
    case Some(JNull) => false
    case Some(JBool(b)) => b
    case Some(JInt(i)) => i != 0
    case Some(JFloat(r)) => r != 0.0
    case Some(JStr(s)) => s != ""
    case Some(JList(_)) => true
    case Some(JObj(_)) => true
  }

  /** Python's `d.get(key, default)`. */
  function Get(d: map<string, Json>, key: string, default: Json): Json
  {
    if key in d then d[key] else default
  }

  /** The `{"error": message}` body both services send with an error status. */
  function ErrorBody(message: string): Json
  {
    JObj(map["error" := JStr(message)])
  }
}
