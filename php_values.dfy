/**
 * The PHP values the middleware handles: the claims object that json_decode
 * builds from a token payload, the user value WordPress passes through the
 * `determine_current_user` filter, and the arrays of query arguments and
 * collection parameters the REST filters rewrite.
 */
module PhpValues {
  import opened Wrappers

  /** A PHP array key: an integer or a string. */
  datatype Key = IntKey(i: int) | StrKey(s: string)

  /** A PHP value. Arrays are maps (key order is not modelled); objects are the
      stdClass instances json_decode produces for JSON objects. */
  datatype Value =
    | Null
    | Bool(b: bool)
    | Int(i: int)
    | Str(s: string)
    | Arr(entries: map<Key, Value>)
    | Obj(props: map<string, Value>)

  type PhpArray = map<Key, Value>

  /** PHP's conversion of a string to bool: only "" and "0" are false. */
  predicate StrTruthy(s: string)
  {
    s != "" && s != "0"
  }

  /** PHP's conversion of any value to bool, as `if ($v)` and `!$v` apply it. */
  predicate Truthy(v: Value)
  {
    match v
    case Null => false
    case Bool(b) => b
    case Int(i) => i != 0
    case Str(s) => StrTruthy(s)
    case Arr(m) => m != map[]
    case Obj(_) => true
  }

  /** `isset($input) ? $input : false` followed by a truth test, for an input
      that is a string when it is present. */
  predicate IsSetAndTruthy(input: Option<string>)
  {
    input.Some? && StrTruthy(input.value)
  }

  /** Reading `$v->name`: the property of an object; null (PHP raises only a
      warning) when `v` is not an object or has no such property. */
  function Prop(v: Value, name: string): Value
  {
    if v.Obj? && name in v.props then v.props[name] else Null
  }

  /** `isset($v->name)`: `v` is an object whose property `name` exists and is not null. */
  predicate PropIsSet(v: Value, name: string)
  {
    v.Obj? && name in v.props && v.props[name] != Null
  }

  /** Reading the slot `$a[$k]`, which may be missing. */
  function Lookup(a: PhpArray, k: Key): Option<Value>
  {
    if k in a then Some(a[k]) else None
  }

  /** `a2` is `a` with the entry at `k` set (added or replaced) and nothing else changed. */
  ghost predicate SameExcept(a: PhpArray, a2: PhpArray, k: Key)
  {
    && a2.Keys == a.Keys + {k}
    && forall j :: j in a && j != k ==> a2[j] == a[j]
  }
}
