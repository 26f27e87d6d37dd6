/** Parsed JSON as the scripts see it: Python's None, bool, int, str, list and
    dict, with the truthiness, dict.get, `a or b` and str() the code relies on. */
module PyValue {
  import opened Wrappers
  import opened PyText
  import Order

  datatype Value =
    | Null
    | Bool(b: bool)
    | Int(i: int)
    | Str(s: string)
    | List(items: seq<Value>)
    | Obj(fields: map<string, Value>)

  /** Python's bool(v): None, False, 0 and empty containers are falsy. */
  predicate Truthy(v: Value) {
    match v
    case Null => false
    case Bool(b) => b
    case Int(i) => i != 0
    case Str(s) => s != []
    case List(items) => items != []
    case Obj(m) => m != map[]
  }

  /** d.get(k): None for a missing key. */
  function Get(d: map<string, Value>, k: string): Value {
    if k in d then d[k] else Null
  }

  /** d.get(k1) or d.get(k2) or ...: the first truthy value, if any. */
  function FirstTruthy(d: map<string, Value>, keys: seq<string>): (r: Option<Value>)
    ensures r.Some? ==> Truthy(r.value)
    ensures r.None? <==> forall i :: 0 <= i < |keys| ==> !Truthy(Get(d, keys[i]))
  {
    if keys == [] then None
    else if Truthy(Get(d, keys[0])) then Some(Get(d, keys[0]))
    else FirstTruthy(d, keys[1..])
  }

  /** d.get(k1) or ... or dflt. */
  function OrElse(d: map<string, Value>, keys: seq<string>, dflt: Value): Value {
    match FirstTruthy(d, keys)
    case Some(v) => v
    case None => dflt
  }

  /** (d.get(k1) or ... or "") used as a str: a truthy value of another type
      makes the following string method raise AttributeError. */
  function RawText(d: map<string, Value>, keys: seq<string>): (r: Result<string>)
    ensures r.Crash? <==> FirstTruthy(d, keys).Some? && !FirstTruthy(d, keys).value.Str?
    ensures r.Ok? && FirstTruthy(d, keys).Some? ==> FirstTruthy(d, keys) == Some(Str(r.value))
    ensures r.Ok? && FirstTruthy(d, keys).None? ==> r.value == ""
  {
    match FirstTruthy(d, keys)
    case None => Ok("")
    case Some(v) => if v.Str? then Ok(v.s) else Crash
  }

  /** (d.get(k1) or ... or "").strip() */
  function TextOf(d: map<string, Value>, keys: seq<string>): (r: Result<string>)
    ensures r.Ok? ==> Trimmed(r.value)
    ensures r.Crash? <==> RawText(d, keys).Crash?
  {
    var t :- RawText(d, keys);
    Ok(Strip(t))
  }

  /** x.get(...) needs a dict: anything else raises AttributeError. */
  function Fields(v: Value): (r: Result<map<string, Value>>)
    ensures r.Ok? <==> v.Obj?
  {
    if v.Obj? then Ok(v.fields) else Crash
  }

  /** Python's repr() of a parsed JSON value. Dict keys are listed in increasing
      order and string contents are not escaped. */
  function Repr(v: Value): (r: string)
    ensures r != [] && !IsSpace(r[0])
    decreases v
  {
    match v
    case Null => "None"
    case Bool(b) => if b then "True" else "False"
    case Int(i) => IntToStr(i)
    case Str(s) => Quote(s)
    case List(items) => "[" + ReprItems(items, v) + "]"
    case Obj(m) => "{" + ReprFields(Order.SortedElems(m.Keys), m, v) + "}"
  }

  /** repr() of a str, without the escaping of quotes and control characters. */
  function Quote(s: string): string {
    "'" + s + "'"
  }

  function ReprItems(items: seq<Value>, ghost parent: Value): string
    requires forall i :: 0 <= i < |items| ==> items[i] < parent
    decreases parent, |items|
  {
    if items == [] then ""
    else if |items| == 1 then Repr(items[0])
    else Repr(items[0]) + ", " + ReprItems(items[1..], parent)
  }

  function ReprFields(keys: seq<string>, m: map<string, Value>, ghost parent: Value): string
    requires forall k :: k in m ==> m[k] < parent
    requires forall i :: 0 <= i < |keys| ==> keys[i] in m
    decreases parent, |keys|
  {
    if keys == [] then ""
    else
      var field := Quote(keys[0]) + ": " + Repr(m[keys[0]]);
      if |keys| == 1 then field else field + ", " + ReprFields(keys[1..], m, parent)
  }

  /** Python's str(v): a string is itself, everything else its repr(). */
  function PyStr(v: Value): string {
    if v.Str? then v.s else Repr(v)
  }

  /** str() of anything but a string has visible text: strip() never empties it. */
  lemma PyStrNonBlank(v: Value)
    requires !v.Str?
    ensures Strip(PyStr(v)) != []
  {
  }

  /** The int a bool stands for in arithmetic and comparison. */
  function BoolInt(x: bool): int {
    if x then 1 else 0
  }

  /** Python's == on parsed JSON values: True equals 1 and False equals 0, also
      inside lists and dicts; lists compare item by item, dicts by their keys
      and the values under them; values of other different kinds differ. */
  predicate PyEq(a: Value, b: Value)
    decreases a
  {
    match a
    case Bool(x) => (b.Bool? && b.b == x) || (b.Int? && b.i == BoolInt(x))
    case Int(i) => (b.Int? && b.i == i) || (b.Bool? && BoolInt(b.b) == i)
    case List(xs) => b.List? && |xs| == |b.items| && forall i :: 0 <= i < |xs| ==> PyEq(xs[i], b.items[i])
    case Obj(m) => b.Obj? && m.Keys == b.fields.Keys && forall k :: k in m ==> PyEq(m[k], b.fields[k])
    case _ => a == b
  }

  /** Every value equals itself. */
  lemma {:induction false} PyEqReflexive(a: Value)
    ensures PyEq(a, a)
    decreases a
  {
    match a
    case List(xs) =>
      forall i | 0 <= i < |xs|
        ensures PyEq(xs[i], xs[i])
      {
        PyEqReflexive(xs[i]);
      }
    case Obj(m) =>
      forall k | k in m
        ensures PyEq(m[k], m[k])
      {
        PyEqReflexive(m[k]);
      }
    case _ =>
  }

  /** == is symmetric. */
  lemma {:induction false} PyEqSymmetric(a: Value, b: Value)
    requires PyEq(a, b)
    ensures PyEq(b, a)
    decreases a
  {
    match a
    case List(xs) =>
      forall i | 0 <= i < |xs|
        ensures PyEq(b.items[i], xs[i])
      {
        PyEqSymmetric(xs[i], b.items[i]);
      }
    case Obj(m) =>
      forall k | k in b.fields
        ensures PyEq(b.fields[k], m[k])
      {
        PyEqSymmetric(m[k], b.fields[k]);
      }
    case _ =>
  }

  /** None and strings equal only themselves. */
  lemma PyEqOfText(a: Value, b: Value)
    requires a.Null? || a.Str?
    ensures PyEq(a, b) <==> a == b
  {
  }

  /** A bool equals the int it stands for, in both orders. */
  lemma PyEqBoolInt(x: bool)
    ensures PyEq(Bool(x), Int(BoolInt(x))) && PyEq(Int(BoolInt(x)), Bool(x))
    ensures !PyEq(Bool(x), Int(BoolInt(!x)))
  {
  }

  /** int(str(n)) == n for a JSON integer. */
  lemma ParseIntPyStr(n: int)
    ensures ParseInt(PyStr(Int(n))) == Some(n)
  {
    ParseIntOfIntToStr(n);
  }
}
