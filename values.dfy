/** Decoded message bodies and the few Python 3 operations the executor applies
    to them (`dict.get`, `==`, `<`, `in`, `+= 1`), including the cases where
    Python raises instead of answering. */
module Values {

  /** A JSON value as `json.loads` produces it (floating-point numbers are
      not modelled). */
  datatype Value =
    | Null
    | Bool(b: bool)
    | Int(i: int)
    | Str(s: string)
    | Arr(items: seq<Value>)
    | Obj(fields: map<string, Value>)

  /** A message body: a decoded JSON object. */
  type Body = map<string, Value>

  /** The Python exceptions a handler can raise. */
  datatype Error =
    | DecodeError          // the body is not UTF-8 JSON (decode/json.loads raises)
    | KeyError(key: string)
    | TypeError
    | Uncaught(repr: string) // an exception escaping a collaborator (e.g. Popen)

  datatype Option<T> = None | Some(value: T)

  datatype Result<T> = Ok(value: T) | Err(error: Error) {
    predicate IsFailure() { Err? }
    function PropagateFailure<U>(): Result<U> requires Err? { Err(error) }
    function Extract(): T requires Ok? { value }
  }

  /** `m.get(key, default)`: the subscript `m[key]` with its KeyError
      replaced by `default`. */
  function Get(m: Body, key: string, default: Value): (v: Value)
    ensures Lookup(m, key).Ok? ==> v == Lookup(m, key).value
    ensures Lookup(m, key).Err? ==> v == default
  {
    if key in m then m[key] else default
  }

  /** `m[key]`, which raises KeyError when the key is absent. */
  function Lookup(m: Body, key: string): (r: Result<Value>)
    ensures r.Ok? <==> key in m
    ensures r.Ok? ==> r.value == m[key]
    ensures r.Err? ==> r.error == KeyError(key)
  {
    if key in m then Ok(m[key]) else Err(KeyError(key))
  }

  /** The numeric value of a Python int or bool (bool is a subclass of int). */
  function AsNumber(v: Value): (r: Option<int>)
    ensures r.Some? <==> v.Int? || v.Bool?
    ensures v.Int? ==> r == Some(v.i)
    ensures v.Bool? ==> r == Some(if v.b then 1 else 0)
  {
    match v
    case Int(i) => Some(i)
    case Bool(b) => Some(if b then 1 else 0)
    case _ => None
  }

  /** Python `a == b` on decoded JSON values: numbers by value (True == 1),
      containers element by element, unlike types unequal. */
  function PyEq(a: Value, b: Value): (r: bool)
    ensures AsNumber(a).Some? && AsNumber(b).Some? ==> (r <==> AsNumber(a).value == AsNumber(b).value)
    ensures a.Str? && b.Str? ==> (r <==> a.s == b.s)
    ensures a.Null? || b.Null? ==> (r <==> a.Null? && b.Null?)
    ensures a.Str? != b.Str? ==> !r
  {
    if AsNumber(a).Some? || AsNumber(b).Some? then AsNumber(a) == AsNumber(b)
    else match (a, b)
      case (Null, Null) => true
      case (Str(x), Str(y)) => x == y
      case (Arr(xs), Arr(ys)) => |xs| == |ys| && forall k :: 0 <= k < |xs| ==> PyEq(xs[k], ys[k])
      case (Obj(m), Obj(n)) => m.Keys == n.Keys && forall k :: k in m ==> PyEq(m[k], n[k])
      case _ => false
  }

  /** Every decoded value equals itself under Python `==` (there are no
      floats, so no NaN). */
  lemma {:induction false} PyEqReflexive(v: Value)
    ensures PyEq(v, v)
    decreases v
  {
    match v
    case Arr(items) =>
      forall k | 0 <= k < |items| ensures PyEq(items[k], items[k]) {
        PyEqReflexive(items[k]);
      }
    case Obj(fields) =>
      forall k | k in fields ensures PyEq(fields[k], fields[k]) {
        PyEqReflexive(fields[k]);
      }
    case _ =>
  }

  /** Python `x < y` on two str values: code point by code point. */
  predicate StrLess(x: string, y: string)
  {
    if |x| == 0 then |y| > 0
    else if |y| == 0 then false
    else if x[0] == y[0] then StrLess(x[1..], y[1..])
    else x[0] < y[0]
  }

  /** Python `a < b`: numbers by value, str and list lexicographically;
      every other pairing raises TypeError. */
  function PyLess(a: Value, b: Value): (r: Result<bool>)
    ensures AsNumber(a).Some? && AsNumber(b).Some? ==> r == Ok(AsNumber(a).value < AsNumber(b).value)
    ensures a.Null? || b.Null? ==> r == Err(TypeError)
    ensures AsNumber(a).None? || AsNumber(b).None? ==>
              r == (if a.Str? && b.Str? then Ok(StrLess(a.s, b.s))
                    else if a.Arr? && b.Arr? then SeqLess(a.items, b.items, a)
                    else Err(TypeError))
    decreases a, 1
  {
    if AsNumber(a).Some? && AsNumber(b).Some? then Ok(AsNumber(a).value < AsNumber(b).value)
    else match (a, b)
      case (Str(x), Str(y)) => Ok(StrLess(x, y))
      case (Arr(xs), Arr(ys)) => SeqLess(xs, ys, a)
      case _ => Err(TypeError)
  }

  /** List comparison as CPython does it: the first pair of elements that are
      not equal decides, by `<`; if there is none the shorter list is less. */
  function SeqLess(xs: seq<Value>, ys: seq<Value>, ghost whole: Value): Result<bool>
    requires forall k :: 0 <= k < |xs| ==> xs[k] < whole
    decreases whole, 0, |xs|
  {
    if |xs| == 0 || |ys| == 0 then Ok(|xs| < |ys|)
    else if PyEq(xs[0], ys[0]) then SeqLess(xs[1..], ys[1..], whole)
    else PyLess(xs[0], ys[0])
  }

  /** `t` occurs in `s` as a contiguous slice (Python `t in s` on two str). */
  predicate IsSubstring(t: string, s: string)
  {
    (|t| <= |s| && s[..|t|] == t) || (|s| > 0 && IsSubstring(t, s[1..]))
  }

  /** Python `needle in container`: a list is searched with `==`, a str for a
      substring (a non-str needle raises), a dict by key (its keys are str, so
      a number or None is never found, and a list or dict needle is
      unhashable); None, bool and int are not iterable. */
  function PyIn(needle: Value, container: Value): (r: Result<bool>)
    ensures container.Arr? ==> r == Ok(exists k :: 0 <= k < |container.items| && PyEq(needle, container.items[k]))
    ensures container.Null? || container.Bool? || container.Int? ==> r == Err(TypeError)
    ensures container.Str? ==> r == (if needle.Str? then Ok(IsSubstring(needle.s, container.s)) else Err(TypeError))
    ensures container.Obj? ==>
              r == (if needle.Str? then Ok(needle.s in container.fields)
                    else if needle.Arr? || needle.Obj? then Err(TypeError)
                    else Ok(false))
  {
    match container
    case Arr(items) => Ok(exists k :: 0 <= k < |items| && PyEq(needle, items[k]))
    case Str(s) => if needle.Str? then Ok(IsSubstring(needle.s, s)) else Err(TypeError)
    case Obj(m) =>
      if needle.Str? then Ok(needle.s in m)
      else if needle.Arr? || needle.Obj? then Err(TypeError)
      else Ok(false)
    case _ => Err(TypeError)
  }

  /** Python `v += 1`: only an int or a bool can be incremented, and the
      result is an int. */
  function PyAddOne(v: Value): (r: Result<Value>)
    ensures r.Ok? <==> AsNumber(v).Some?
    ensures r.Ok? ==> r.value == Int(AsNumber(v).value + 1)
    ensures r.Err? ==> r.error == TypeError
  {
    match v
    case Int(i) => Ok(Int(i + 1))
    case Bool(b) => Ok(Int(if b then 2 else 1))
    case _ => Err(TypeError)
  }

  /** A list of Python ints, as a producer writes `non_retriable`. */
  function IntList(xs: seq<int>): (v: Value)
    ensures v.Arr? && |v.items| == |xs|
    ensures forall k :: 0 <= k < |xs| ==> v.items[k] == Int(xs[k])
  {
    Arr(seq(|xs|, k requires 0 <= k < |xs| => Int(xs[k])))
  }

  /** On a list of ints, Python membership of an int is plain membership. */
  lemma IntInIntList(c: int, xs: seq<int>)
    ensures PyIn(Int(c), IntList(xs)) == Ok(c in xs)
  {
    var l := IntList(xs);
    if c in xs {
      var k :| 0 <= k < |xs| && xs[k] == c;
      assert PyEq(Int(c), l.items[k]);
    }
  }
}
