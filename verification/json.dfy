/** The JSON values a configuration file parses to, with the JavaScript notions the
    configuration code relies on: truthiness, `typeof`, `instanceof Object`, and the own
    enumerable properties that `{...v}` copies and `for (k in v)` visits. */
module Json {
  import opened Text

  /** A value `JSON.parse` can produce. Numbers are integers in this model. */
  datatype Json =
    | JNull
    | JBool(b: bool)
    | JNum(n: int)
    | JStr(s: string)
    | JArr(items: seq<Json>)
    | JObj(fields: map<string, Json>)

  /** JavaScript truthiness of a JSON value. */
  predicate Truthy(v: Json)
    ensures InstanceOfObject(v) ==> Truthy(v)
    ensures Truthy(v) ==> !v.JNull?
  {
    match v
    case JNull => false
    case JBool(b) => b
    case JNum(n) => n != 0
    case JStr(s) => s != ""
    case _ => true
  }

  /** `typeof v`; note that `typeof null` is "object". */
  function TypeOf(v: Json): string {
    match v
    case JNull => "object"
    case JBool(_) => "boolean"
    case JNum(_) => "number"
    case JStr(_) => "string"
    case _ => "object"
  }

  /** `v instanceof Object`: arrays and objects, not `null`. */
  predicate InstanceOfObject(v: Json) {
    v.JArr? || v.JObj?
  }

  /** `v && typeof v === 'object'`. */
  predicate IsNonNullObject(v: Json) {
    Truthy(v) && TypeOf(v) == "object"
  }

  /** The own enumerable properties of `v`: an object's fields, an array's elements or a
      string's characters under their index keys, and nothing for the other values. */
  function Entries(v: Json): (r: map<string, Json>)
    ensures InstanceOfObject(v) ==> forall k :: k in r ==> r[k] < v
    ensures v.JStr? ==> forall k :: k in r ==> r[k].JStr?
  {
    match v
    case JObj(m) => m
    case JArr(items) => IndexEntries(items)
    case JStr(s) => CharEntries(s)
    case _ => map[]
  }

  function IndexEntries(items: seq<Json>): (r: map<string, Json>)
    ensures forall k :: k in r ==> r[k] in items
  {
    if items == [] then map[]
    else IndexEntries(items[..|items| - 1])[NatToString(|items| - 1) := items[|items| - 1]]
  }

  function CharEntries(s: string): (r: map<string, Json>)
    ensures forall k :: k in r ==> r[k].JStr?
  {
    if s == [] then map[]
    else CharEntries(s[..|s| - 1])[NatToString(|s| - 1) := JStr([s[|s| - 1]])]
  }
}
