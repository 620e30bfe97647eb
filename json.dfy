/**
 * JSON-like values as the request handlers and the document store see them:
 * a request body, a query filter and a stored document are all maps from
 * field names to values.
 */
module Json {

  datatype Option<+T> = None | Some(value: T)

  /** A document identifier (the string form of a store-assigned id). */
  type Id = string

  /**
   * A field value. Numbers are integers; `Date` holds milliseconds since the
   * epoch; `Composite` stands for any array or nested object.
   */
  datatype Value =
    | Null
    | Bool(b: bool)
    | Num(n: int)
    | Str(s: string)
    | Date(ms: int)
    | Composite

  /** A document, a request body or a patch: field name to value. */
  type Doc = map<string, Value>

  /** JavaScript truthiness of a value. */
  predicate TruthyValue(v: Value) {
    match v
    case Null => false
    case Bool(b) => b
    case Num(n) => n != 0
    case Str(s) => s != ""
    case Date(_) => true
    case Composite => true
  }

  /** Truthiness of `obj[key]`, where a missing key reads as `undefined`. */
  predicate Truthy(obj: Doc, key: string) {
    key in obj && TruthyValue(obj[key])
  }
}
