/**
 * The Python values that `response.json()` produces, and the few Python operations the survey
 * applies to them.  Each operation returns `None` exactly where Python would raise KeyError or
 * TypeError; every caller in the scripts either catches both or lets both propagate, so the
 * model does not tell them apart.  Floating-point numbers are not modelled.
 */
module Json {
  import opened Wrappers
  import opened Text

  datatype Value =
    | Null
    | Bool(b: bool)
    | Int(i: int)
    | Str(s: string)
    | Array(items: seq<Value>)
    | Object(fields: map<string, Value>)

  /** `v[key]` with a string key: only a dict that has the key answers. */
  function Get(v: Value, key: string): Option<Value>
  {
    if v.Object? && key in v.fields then Some(v.fields[key]) else None
  }

  /**
   * The elements a `for x in v` loop visits, for a loop whose body first subscripts `x` with a
   * string key.  A list yields its items and a string its one-character strings; a dict yields
   * its (string) keys, and the first subscript of such a key raises, so a non-empty dict is
   * modelled as raising at once; None, booleans and integers are not iterable.
   */
  function Iterate(v: Value): Option<seq<Value>>
  {
    match v
    case Array(items) => Some(items)
    case Str(s) => Some(seq(|s|, k requires 0 <= k < |s| => Str([s[k]])))
    case Object(fields) => if fields == map[] then Some([]) else None
    case _ => None
  }

  /** `needle in v` for a string needle: substring test, list membership or dict key test. */
  function Has(v: Value, needle: string): Option<bool>
  {
    match v
    case Str(s) => Some(Contains(s, needle))
    case Array(items) => Some(Str(needle) in items)
    case Object(fields) => Some(needle in fields)
    case _ => None
  }

  /** `v > 0`: defined for integers and booleans (True > 0), a TypeError otherwise. */
  function IsPositive(v: Value): Option<bool>
  {
    match v
    case Int(i) => Some(i > 0)
    case Bool(b) => Some(b)
    case _ => None
  }

  /** Python's `bool(v)`: None, False, 0 and empty containers are false. */
  predicate Truthy(v: Value)
  {
    match v
    case Null => false
    case Bool(b) => b
    case Int(i) => i != 0
    case Str(s) => s != ""
    case Array(items) => items != []
    case Object(fields) => fields != map[]
  }
}
