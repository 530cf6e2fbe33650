/** The small part of JavaScript's value semantics the frontend's decisions
    depend on: decoded JSON values, truthiness, property reads, `||` and
    `String.prototype.includes`. */
module Js {

  /** A value as the gateways see it after the HTTP client has decoded the
      body. Numbers are integers (the model never needs fractions, NaN or -0). */
  datatype Value =
    | Undefined
    | Null
    | Bool(b: bool)
    | Num(n: int)
    | Str(s: string)
    | Arr(items: seq<Value>)
    | Obj(fields: map<string, Value>)

  /** JavaScript truthiness: `undefined`, `null`, `false`, `0` and `''` are falsy. */
  predicate Truthy(v: Value) {
    match v
    case Undefined => false
    case Null => false
    case Bool(b) => b
    case Num(n) => n != 0
    case Str(s) => s != ""
    case Arr(_) => true
    case Obj(_) => true
  }

  /** `typeof v === 'object'` (true of `null` and of arrays as well). */
  predicate IsObjectType(v: Value) {
    v.Null? || v.Arr? || v.Obj?
  }

  /** The property read `v.key`: an own property of an object, `undefined` otherwise. */
  function Get(v: Value, key: string): (r: Value)
    ensures !v.Obj? ==> r == Undefined
    ensures v.Obj? && key !in v.fields ==> r == Undefined
  {
    if v.Obj? && key in v.fields then v.fields[key] else Undefined
  }

  /** `a || b`: the first operand when it is truthy, the second otherwise. */
  function Or(a: Value, b: Value): (r: Value)
    ensures Truthy(a) ==> r == a
    ensures !Truthy(a) ==> r == b
  {
    if Truthy(a) then a else b
  }

  /** The text a notice or an `Error` shows for `v || fallback` when `v` is a
      message field: the string itself when it is a non-empty string, the
      fallback text when `v` is falsy. */
  function TextOr(v: Value, fallback: string): (t: string)
    ensures Truthy(v) && v.Str? ==> t == v.s
    ensures !Truthy(v) ==> t == fallback
  {
    if v.Str? && v.s != "" then v.s else fallback
  }

  /** `s.includes(sub)`: `sub` occurs in `s` as a contiguous substring. */
  predicate Includes(s: string, sub: string)
    decreases |s|
  {
    |sub| <= |s| && (sub == s[..|sub|] || Includes(s[1..], sub))
  }

  /** `sub` occurs in `s` starting at position `i`. */
  predicate OccursAt(s: string, sub: string, i: int) {
    0 <= i && i + |sub| <= |s| && s[i..i + |sub|] == sub
  }

  /** `Includes` agrees with the positional definition of a substring. */
  lemma {:induction false} IncludesIff(s: string, sub: string)
    ensures Includes(s, sub) <==> exists i :: OccursAt(s, sub, i)
    decreases |s|
  {
    if |sub| <= |s| {
      if sub == s[..|sub|] {
        assert OccursAt(s, sub, 0);
      } else {
        IncludesIff(s[1..], sub);
        if Includes(s[1..], sub) {
          var i :| OccursAt(s[1..], sub, i);
          assert s[1..][i..i + |sub|] == s[i + 1..i + 1 + |sub|];
          assert OccursAt(s, sub, i + 1);
        } else {
          forall i | 0 < i && OccursAt(s, sub, i) ensures OccursAt(s[1..], sub, i - 1) {
            assert s[1..][i - 1..i - 1 + |sub|] == s[i..i + |sub|];
          }
        }
      }
    }
  }

  /** Every string includes the empty string, so a search for `''` matches any entry. */
  lemma {:induction false} IncludesEmpty(s: string)
    ensures Includes(s, "")
  {
    assert "" == s[..0];
  }
}
