/** Schema-less documents, as the registration form builds them: a map from
    field name to a value. Reading a missing field gives `undefined`. */
module Documents {

  /** The values a member document holds: strings from text inputs, booleans
      from checkboxes, the number computed for `age`, the nested object of an
      education level, a server timestamp, and JavaScript's `undefined`. */
  datatype Value =
    | Undefined
    | Text(s: string)
    | Flag(b: bool)
    | Number(n: int)
    | Level(fields: map<string, string>)
    | Stamp(t: int)

  type Doc = map<string, Value>

  /** `doc[key]`, which is `undefined` for a missing key. */
  function Get(doc: Doc, key: string): (v: Value)
    ensures key in doc ==> v == doc[key]
    ensures key !in doc ==> v == Undefined
  {
    if key in doc then doc[key] else Undefined
  }

  /** JavaScript truthiness: `undefined`, `''`, `false` and `0` are falsy;
      every object is truthy. */
  predicate Truthy(v: Value)
  {
    match v
    case Undefined => false
    case Text(s) => s != ""
    case Flag(b) => b
    case Number(n) => n != 0
    case Level(_) => true
    case Stamp(_) => true
  }
}
