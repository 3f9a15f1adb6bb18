/**
 * An untyped document, as a zod schema receives it. An object key that is
 * absent stands for `undefined`.
 */
module Json {
  import opened Wrappers

  datatype Value =
    | Null
    | Bool(b: bool)
    | Num(n: int)
    | Str(s: string)
    | Date(ms: int)
    | Arr(items: seq<Value>)
    | Obj(fields: map<string, Value>)

  /** `nonEmptyString`: a string of at least one character. */
  predicate IsNonEmptyString(v: Value) {
    v.Str? && |v.s| > 0
  }

  /** `foreignKey`: the id of another document, modelled as a non-empty string. */
  predicate IsForeignKey(v: Value) {
    IsNonEmptyString(v)
  }

  /** A required `nonEmptyString` field. */
  predicate HasNonEmpty(v: Value, key: string) {
    v.Obj? && key in v.fields && IsNonEmptyString(v.fields[key])
  }

  /** An optional `nonEmptyString` field: absent, or a non-empty string. */
  predicate OptionalNonEmpty(v: Value, key: string) {
    v.Obj? && (key !in v.fields || IsNonEmptyString(v.fields[key]))
  }

  /** Adds `key` to a stored object when the optional field is present. */
  function OptField(m: map<string, Value>, key: string, o: Option<string>): (r: map<string, Value>)
    ensures key in r <==> o.Some? || key in m
    ensures o.Some? ==> r[key] == Str(o.value)
    ensures forall k :: k != key ==> (k in r <==> k in m) && (k in m ==> r[k] == m[k])
  {
    if o.Some? then m[key := Str(o.value)] else m
  }
}
