/**
 * The values `json_decode($contents, true)` produces, and the PHP array
 * primitives the provider applies to them: `Arr::get` with a null default,
 * `isset` on a string key and `is_array`.
 *
 * With its second argument `true`, `json_decode` turns a JSON object into an
 * associative array and a JSON list into an array with keys 0, 1, ...; both
 * are PHP arrays, which is why `List` and `Object` are kept apart here but
 * both answer `IsArray`.
 */
module PhpValue {

  datatype Value =
    | Null
    | Bool(b: bool)
    | Number(literal: string)           // a JSON number, kept as its literal text
    | Str(s: string)
    | List(items: seq<Value>)           // a JSON list: an array keyed 0, 1, ...
    | Object(fields: map<string, Value>) // a JSON object: an array keyed by strings

  /** `is_array($v)`: both kinds of decoded arrays. */
  predicate IsArray(v: Value) {
    v.List? || v.Object?
  }

  /**
   * `Arr::get($m, $key)` with the default `null`, for a key without a dot:
   * the stored value when the key is present (even a stored null), null otherwise.
   */
  function Lookup(m: map<string, Value>, key: string): Value {
    if key in m then m[key] else Null
  }

  /**
   * `isset($v[$key])` for a non-numeric string key: the key is present in an
   * associative array and its value is not null. A list has only integer
   * keys, and a scalar or null has none.
   */
  predicate IsSet(v: Value, key: string) {
    match v
    case Object(fields) => key in fields && fields[key] != Null
    case _ => false
  }
}
