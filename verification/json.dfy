/** JSON values (RFC 8259) and the few JavaScript operations the system
    applies to them: property reads, truthiness, `Array.isArray`,
    `Object.keys(..).length`. */
module Json {
  import opened Wrappers

  datatype JValue =
    | JNull
    | JBool(b: bool)
    | JNum(n: real)
    | JStr(s: string)
    | JArr(items: seq<JValue>)
    | JObj(fields: map<string, JValue>)

  /** The property read `v.key` for the property names this system uses
      (none is an index or `length`): only an object has them, and a missing
      one reads as `undefined`. Reading a property of `null` throws in
      JavaScript, so callers that may meet `null` test for it first and
      model the exception themselves. */
  function Member(v: JValue, key: string): (r: Option<JValue>)
    ensures r.Some? <==> v.JObj? && key in v.fields
    ensures r.Some? ==> r.value == v.fields[key]
  {
    if v.JObj? && key in v.fields then Some(v.fields[key]) else None
  }

  /** `obj.key` on an optional value (`obj?.key`). */
  function MemberOf(v: Option<JValue>, key: string): Option<JValue> {
    if v.Some? then Member(v.value, key) else None
  }

  /** JavaScript truthiness: `undefined`, `null`, `false`, `0`, `""` are
      falsy; every array and object, even an empty one, is truthy. */
  predicate Truthy(v: Option<JValue>) {
    match v
    case None => false
    case Some(JNull) => false
    case Some(JBool(b)) => b
    case Some(JNum(n)) => n != 0.0
    case Some(JStr(s)) => |s| > 0
    case Some(JArr(_)) => true
    case Some(JObj(_)) => true
  }

  /** `Array.isArray(v)`. */
  predicate IsArray(v: Option<JValue>) {
    v.Some? && v.value.JArr?
  }

  /** `a || b`: the first operand when truthy, else the second. */
  function Or(a: Option<JValue>, b: JValue): (r: JValue)
    ensures Truthy(a) ==> Some(r) == a
    ensures !Truthy(a) ==> r == b
  {
    if Truthy(a) then a.value else b
  }

  /** `Object.keys(v).length` for a JSON value: own enumerable keys of an
      object, indices of an array or a string, none for the other kinds. */
  function KeyCount(v: JValue): nat {
    match v
    case JObj(m) => |m|
    case JArr(xs) => |xs|
    case JStr(s) => |s|
    case _ => 0
  }

  /** Adding an optional field to an object as `JSON.stringify` prints
      it: an `undefined` value leaves the field out. */
  function Put(m: map<string, JValue>, key: string, v: Option<JValue>): (r: map<string, JValue>)
    ensures v.None? ==> r == m
    ensures v.Some? ==> r == m[key := v.value]
  {
    if v.Some? then m[key := v.value] else m
  }

  function StrArr(xs: seq<string>): (r: JValue)
    ensures r.JArr? && |r.items| == |xs|
    ensures forall i :: 0 <= i < |xs| ==> r.items[i] == JStr(xs[i])
  {
    JArr(seq(|xs|, i requires 0 <= i < |xs| => JStr(xs[i])))
  }

  function OptStr(x: Option<string>): Option<JValue> {
    if x.Some? then Some(JStr(x.value)) else None
  }

  function OptObj(x: Option<map<string, JValue>>): Option<JValue> {
    if x.Some? then Some(JObj(x.value)) else None
  }

  function OptStrArr(x: Option<seq<string>>): Option<JValue> {
    if x.Some? then Some(StrArr(x.value)) else None
  }
}
