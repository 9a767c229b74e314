/** JSON documents as Python's `json` module hands them to the node, with the
    parts of Python's object semantics the node relies on: truthiness, `dict.get`
    with a default, iteration, `==` against a string or a number, and `str()`. */
module Json {
  import opened Text

  datatype Option<T> = None | Some(value: T)

  /** A decoded JSON value. Objects keep their keys in document order (Python
      dicts preserve insertion order); `Null` is Python's `None`. */
  datatype Value =
    | Null
    | Bool(b: bool)
    | Int(i: int)
    | Float(r: real)
    | Str(s: string)
    | List(items: seq<Value>)
    | Obj(entries: seq<(string, Value)>)

  /** Python's truth value of the decoded object (`if v:`). */
  predicate Truthy(v: Value) {
    match v
    case Null => false
    case Bool(b) => b
    case Int(i) => i != 0
    case Float(r) => r != 0.0
    case Str(s) => s != []
    case List(xs) => xs != []
    case Obj(es) => es != []
  }

  /** Python's `x or y`: the first operand when it is truthy, else the second. */
  function Or(x: Value, y: Value): (r: Value)
    ensures Truthy(x) ==> r == x
    ensures !Truthy(x) ==> r == y
  {
    if Truthy(x) then x else y
  }

  /** The value stored under `key`, found by scanning the entries in order. */
  function Lookup(es: seq<(string, Value)>, key: string): (r: Option<Value>)
    ensures r.None? <==> forall i :: 0 <= i < |es| ==> es[i].0 != key
    ensures r.Some? ==> exists i :: 0 <= i < |es| && es[i] == (key, r.value)
  {
    if es == [] then None
    else if es[0].0 == key then Some(es[0].1)
    else
      var r := Lookup(es[1..], key);
      assert r.Some? ==> exists i :: 0 <= i < |es[1..]| && es[1..][i] == (key, r.value);
      r
  }

  /** Python's `key in d` for a dict `d`. */
  predicate HasKey(v: Value, key: string)
    requires v.Obj?
  {
    Lookup(v.entries, key).Some?
  }

  /** Python's `d.get(key, default)` on a dict: the stored value (which may be
      `None`) when the key is present, the default otherwise. */
  function GetOr(v: Value, key: string, default: Value): (r: Value)
    requires v.Obj?
    ensures !HasKey(v, key) ==> r == default
  {
    match Lookup(v.entries, key)
    case Some(x) => x
    case None => default
  }

  /** Python's `d.get(key)`: `None` when the key is missing. */
  function Get(v: Value, key: string): Value
    requires v.Obj?
  {
    GetOr(v, key, Null)
  }

  /** Python's `v == "<s>"`: only a string with the same characters is equal. */
  predicate IsStr(v: Value, s: string) {
    v == Str(s)
  }

  /** Python's `v == n` for an integer literal `n`: an int or a float of the
      same value, or a bool when `n` is 0 or 1. */
  predicate NumEquals(v: Value, n: int) {
    match v
    case Int(i) => i == n
    case Float(r) => r == n as real
    case Bool(b) => (b && n == 1) || (!b && n == 0)
    case _ => false
  }

  /** What `for x in v` iterates over: list items, dict keys, the characters of a
      string; `None` when Python raises (a number, a bool or `None`). */
  function Iterate(v: Value): (r: Option<seq<Value>>)
    ensures v.List? ==> r == Some(v.items)
    ensures r.Some? ==> (|r.value| == 0 <==> !Truthy(v))
  {
    match v
    case List(xs) => Some(xs)
    case Obj(es) => Some(seq(|es|, i requires 0 <= i < |es| => Str(es[i].0)))
    case Str(s) => Some(seq(|s|, i requires 0 <= i < |s| => Str([s[i]])))
    case _ => None
  }

  /** Python's `float(v)`; `None` when it raises. */
  function ToReal(v: Value): (r: Option<real>)
    ensures v.Int? ==> r == Some(v.i as real)
    ensures v.Float? ==> r == Some(v.r)
    ensures v.Null? || v.List? || v.Obj? ==> r.None?
  {
    match v
    case Int(i) => Some(i as real)
    case Float(x) => Some(x)
    case Bool(b) => Some(if b then 1.0 else 0.0)
    case _ => None
  }

  /** Stands for Python's `str()` of a float, a list or a dict. */
  const OtherText: string := "<value>"

  /** Python's `str(v)` for the values that reach a URL, a file name or an id
      list: strings, ints, bools and `None` exactly, anything else as `OtherText`. */
  function Render(v: Value): (r: string)
    ensures v.Str? ==> r == v.s
    ensures v.Int? && v.i >= 0 ==> r == NatToString(v.i)
    ensures Truthy(v) ==> r != []
  {
    match v
    case Str(s) => s
    case Int(i) => IntToString(i)
    case Bool(b) => if b then "True" else "False"
    case Null => "None"
    case _ => OtherText
  }
}
