/** The JavaScript values the OpenAPI generator reads and writes.

    Decorator metadata, schema objects and OpenAPI objects are plain JavaScript
    objects; this module gives them one datatype. Objects are finite maps from
    property names to values (the insertion order of keys is not modelled),
    numbers are integers, and the constructors the generator tells apart
    (`String`, `Number`, `Boolean`, `Array` and user classes) are tags.
 */
module JsValues {

  datatype Option<+T> = None | Some(value: T) {
    function GetOr(default: T): T {
      match this
      case Some(v) => v
      case None => default
    }
  }

  datatype Result<+T, +E> = Success(value: T) | Failure(error: E)

  /** A function value that can be called as a constructor. */
  datatype Ctor = StringCtor | NumberCtor | BooleanCtor | ArrayCtor | ClassCtor(className: string)

  datatype Value =
    | Undefined
    | Null
    | Bool(b: bool)
    | Num(n: int)
    | Str(s: string)
    | Fn(ctor: Ctor)
    | Arr(items: seq<Value>)
    | Obj(fields: Object)

  type Object = map<string, Value>

  /** The `name` property of a constructor. */
  function CtorName(c: Ctor): string {
    match c
    case StringCtor => "String"
    case NumberCtor => "Number"
    case BooleanCtor => "Boolean"
    case ArrayCtor => "Array"
    case ClassCtor(n) => n
  }

  /** JavaScript truthiness (`if (v)`, `!v`, `a && b`). */
  predicate Truthy(v: Value) {
    match v
    case Undefined => false
    case Null => false
    case Bool(b) => b
    case Num(n) => n != 0
    case Str(s) => |s| > 0
    case _ => true
  }

  /** Property read `o.k`: a missing property reads as `undefined`. */
  function Get(o: Object, k: string): Value {
    if k in o then o[k] else Undefined
  }

  /** `a === b`. Primitives compare by value and constructors by identity.
      Two array or object values are identical only when they are the same
      reference, which values cannot express; they are treated as distinct. */
  predicate StrictEquals(a: Value, b: Value) {
    !a.Arr? && !a.Obj? && a == b
  }

  /** The strings of a `string[]` as values. */
  function Strs(xs: seq<string>): (r: seq<Value>)
    ensures |r| == |xs| && forall i :: 0 <= i < |xs| ==> r[i] == Str(xs[i])
  {
    seq(|xs|, i requires 0 <= i < |xs| => Str(xs[i]))
  }

  predicate StartsWith(s: string, prefix: string) {
    |prefix| <= |s| && s[..|prefix|] == prefix
  }

  predicate EndsWith(s: string, suffix: string) {
    |suffix| <= |s| && s[|s| - |suffix|..] == suffix
  }

  predicate IsUpper(c: char) {
    'A' <= c <= 'Z'
  }

  function LowerChar(c: char): char {
    if IsUpper(c) then (c as int + 32) as char else c
  }

  /** `toLowerCase()` on the ASCII letters. */
  function ToLower(s: string): (r: string)
    ensures |r| == |s|
    ensures forall i :: 0 <= i < |s| ==> r[i] == LowerChar(s[i])
    ensures forall i :: 0 <= i < |r| ==> !IsUpper(r[i])
  {
    seq(|s|, i requires 0 <= i < |s| => LowerChar(s[i]))
  }

  /** Lower-casing twice is lower-casing once. */
  lemma ToLowerIdempotent(s: string)
    ensures ToLower(ToLower(s)) == ToLower(s)
  {
    var once := ToLower(s);
    assert forall i | 0 <= i < |s| :: ToLower(once)[i] == once[i];
  }

  /** Maps that agree on every key are equal (stated once, so that proofs
      about maps of values do not search for it). */
  lemma MapsEqual<K, V>(a: map<K, V>, b: map<K, V>)
    requires a.Keys == b.Keys && forall k | k in a :: a[k] == b[k]
    ensures a == b
  {
  }
}
