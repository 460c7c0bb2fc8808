/** The JavaScript values the core handles: what `JSON.parse` produces and what
    `express.json()` leaves in a request body, with JavaScript truthiness. */
module Json {
  import opened Wrappers

  /** A JSON value; numbers are kept as exact decimals. */
  datatype Value =
    | Null
    | Bool(b: bool)
    | Num(n: real)
    | Str(s: string)
    | Arr(items: seq<Value>)
    | Obj(fields: map<string, Value>)

  /** `!!v`: `null`, `false`, `0` and `""` are falsy, everything else is truthy. */
  predicate Truthy(v: Value)
  {
    match v
    case Null => false
    case Bool(b) => b
    case Num(n) => n != 0.0
    case Str(s) => s != []
    case Arr(_) => true
    case Obj(_) => true
  }

  /** ECMAScript's ToBoolean table for these values: exactly `null`, `false`,
      `0` and `""` are falsy. */
  lemma FalsyValues(v: Value)
    ensures !Truthy(v) <==> v == Null || v == Bool(false) || v == Num(0.0) || v == Str([])
  {
  }

  /** A property read `o.key` on an object: `None` stands for `undefined`. */
  function Property(o: map<string, Value>, key: string): (r: Option<Value>)
    ensures r.Some? <==> key in o
    ensures r.Some? ==> r.value == o[key]
  {
    if key in o then Some(o[key]) else None
  }

  /** `!!o.key`: an absent property is `undefined`, which is falsy. */
  predicate TruthyProperty(p: Option<Value>)
  {
    p.Some? && Truthy(p.value)
  }
}
