/**
  JSON values as Python's json module hands them to the program (dicts with string
  keys, lists, strings, integers, booleans and None), together with the few pieces of
  Python semantics the dispatcher relies on: truthiness, `dict.get`, `or`, the
  membership operator `in` and `str()`.
 */
module Json {
  import opened Wrappers

  datatype Value =
    | Null
    | Bool(b: bool)
    | Int(i: int)
    | Str(s: string)
    | Arr(items: seq<Value>)
    | Obj(fields: map<string, Value>)

  /** The exceptions Python raises inside the modelled expressions. */
  datatype PyError = TypeError(message: string)

  /** Python's truth value of a JSON value. */
  predicate Truthy(v: Value) {
    match v
    case Null => false
    case Bool(b) => b
    case Int(i) => i != 0
    case Str(s) => s != ""
    case Arr(a) => |a| > 0
    case Obj(m) => |m| > 0
  }

  /** `d.get(key, default)` */
  function GetOr(d: map<string, Value>, key: string, default: Value): Value {
    if key in d then d[key] else default
  }

  /** Python's `a or b`: the first operand when it is truthy, otherwise the second. */
  function Or(a: Value, b: Value): (r: Value)
    ensures Truthy(r) <==> Truthy(a) || Truthy(b)
    ensures Truthy(a) ==> r == a
    ensures !Truthy(a) ==> r == b
  {
    if Truthy(a) then a else b
  }

  /** The name Python reports for the type of a value. */
  function TypeName(v: Value): string {
    match v
    case Null => "NoneType"
    case Bool(_) => "bool"
    case Int(_) => "int"
    case Str(_) => "str"
    case Arr(_) => "list"
    case Obj(_) => "dict"
  }

  predicate IsPrefix(p: string, s: string) {
    |p| <= |s| && s[..|p|] == p
  }

  /** `p in s` for two Python strings: p occurs somewhere in s. */
  predicate IsSubstring(p: string, s: string)
    decreases |s|
  {
    IsPrefix(p, s) || (|s| > 0 && IsSubstring(p, s[1..]))
  }

  lemma {:induction false} SubstringAt(p: string, s: string, i: nat)
    requires i + |p| <= |s| && s[i..i + |p|] == p
    ensures IsSubstring(p, s)
    decreases i
  {
    if i > 0 {
      assert s[1..][i - 1..i - 1 + |p|] == s[i..i + |p|];
      SubstringAt(p, s[1..], i - 1);
    }
  }

  /** `key in container` for a string key: a substring test on strings, a key test on
      dicts, an element test on lists, and a TypeError on every other type. */
  function Contains(container: Value, key: string): (r: Result<bool, PyError>)
    ensures r.Err? <==> container.Null? || container.Bool? || container.Int?
    ensures container.Obj? ==> r == Ok(key in container.fields)
    ensures container.Str? ==> r == Ok(IsSubstring(key, container.s))
    ensures container.Arr? ==> r == Ok(Str(key) in container.items)
  {
    match container
    case Str(s) => Ok(IsSubstring(key, s))
    case Obj(m) => Ok(key in m)
    case Arr(a) => Ok(Str(key) in a)
    case _ => Err(TypeError("argument of type '" + TypeName(container) + "' is not iterable"))
  }

  /** `key in d` for a dict with string keys: lists and dicts are unhashable and raise,
      every other non-string key is simply absent. */
  function DictHas<V>(d: map<string, V>, key: Value): (r: Result<bool, PyError>)
    ensures r.Err? <==> key.Arr? || key.Obj?
    ensures r.Ok? ==> (r.value <==> key.Str? && key.s in d)
  {
    match key
    case Str(s) => Ok(s in d)
    case Arr(_) => Err(TypeError("unhashable type: 'list'"))
    case Obj(_) => Err(TypeError("unhashable type: 'dict'"))
    case _ => Ok(false)
  }

  function DigitChar(d: nat): char
    requires d < 10
  {
    "0123456789"[d]
  }

  function NatToString(n: nat): string
    decreases n
  {
    if n < 10 then [DigitChar(n)] else NatToString(n / 10) + [DigitChar(n % 10)]
  }

  /** `str(v)` for the scalar values; lists and dicts are rendered by a placeholder. */
  function PyStr(v: Value): string {
    match v
    case Null => "None"
    case Bool(b) => if b then "True" else "False"
    case Int(i) => if i < 0 then "-" + NatToString(-i) else NatToString(i)
    case Str(s) => s
    case Arr(_) => "[...]"
    case Obj(_) => "{...}"
  }
}
