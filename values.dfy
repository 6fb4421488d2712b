/**
 * The untrusted planner output as a JSON-like value, and the Python
 * built-ins the pipeline applies to it: truthiness, `x or default`,
 * `dict.get`, item assignment, `setdefault`, iteration, hashing and `int()`.
 * Floating-point numbers are not part of the value space.
 */
module Values {
  import opened Wrappers
  import opened Strings

  /** A dict is kept as its entries in insertion order, one entry per key. */
  datatype Value =
    | Null
    | Bool(b: bool)
    | Int(i: int)
    | Str(s: string)
    | List(items: seq<Value>)
    | Dict(entries: seq<(string, Value)>)

  /** The exceptions the modelled code can raise. */
  datatype Exc =
    | TypeError
    | AttributeError
    | ValueError(msg: string)
    | RuntimeError(msg: string)

  /** Python's truth value. */
  predicate Truthy(v: Value) {
    match v
    case Null => false
    case Bool(b) => b
    case Int(i) => i != 0
    case Str(s) => s != []
    case List(items) => items != []
    case Dict(entries) => entries != []
  }

  /** `x or default`, where a missing key reads as `None`. */
  function Or(x: Option<Value>, default: Value): (r: Value)
    ensures r == default || (x.Some? && r == x.value && Truthy(r))
    ensures x.Some? && Truthy(x.value) ==> r == x.value
  {
    if x.Some? && Truthy(x.value) then x.value else default
  }

  /** `d.get(key)`. */
  function Get(d: seq<(string, Value)>, key: string): Option<Value> {
    if d == [] then None
    else if d[0].0 == key then Some(d[0].1)
    else Get(d[1..], key)
  }

  /** `get` finds a key exactly when some entry has it, and then returns that entry's value. */
  lemma {:induction false} GetFinds(d: seq<(string, Value)>, key: string)
    ensures Get(d, key).Some? <==> exists k :: 0 <= k < |d| && d[k].0 == key
    ensures Get(d, key).Some? ==> (key, Get(d, key).value) in d
  {
    if d != [] && d[0].0 != key {
      GetFinds(d[1..], key);
      assert forall k :: 1 <= k < |d| ==> d[k] == d[1..][k - 1];
    }
  }

  /** `d[key] = v`: an existing key keeps its place, a new key goes last. */
  function Put(d: seq<(string, Value)>, key: string, v: Value): (r: seq<(string, Value)>)
    ensures Get(r, key) == Some(v)
    ensures forall k :: k != key ==> Get(r, k) == Get(d, k)
    ensures Get(d, key).None? ==> r == d + [(key, v)]
    ensures r != []
  {
    if d == [] then [(key, v)]
    else if d[0].0 == key then [(key, v)] + d[1..]
    else [d[0]] + Put(d[1..], key, v)
  }

  /** `d.setdefault(key, v)`, for the dict it leaves behind. */
  function SetDefault(d: seq<(string, Value)>, key: string, v: Value): (r: seq<(string, Value)>)
    ensures Get(r, key) == Some(Get(d, key).GetOr(v))
    ensures forall k :: k != key ==> Get(r, k) == Get(d, k)
    ensures Get(d, key).Some? ==> r == d
  {
    if Get(d, key).Some? then d else Put(d, key, v)
  }

  /** The first entry with a key is the one `get` finds. */
  lemma {:induction false} GetAt(d: seq<(string, Value)>, i: int)
    requires 0 <= i < |d|
    requires forall j :: 0 <= j < i ==> d[j].0 != d[i].0
    ensures Get(d, d[i].0) == Some(d[i].1)
    decreases i
  {
    if i > 0 {
      GetAt(d[1..], i - 1);
    }
  }

  /** A key no entry has is missing. */
  lemma {:induction false} GetMissing(d: seq<(string, Value)>, key: string)
    requires forall j :: 0 <= j < |d| ==> d[j].0 != key
    ensures Get(d, key) == None
  {
    if d != [] {
      GetMissing(d[1..], key);
    }
  }

  /** Writing back the value a key already holds changes nothing. */
  lemma {:induction false} PutSame(d: seq<(string, Value)>, key: string)
    requires Get(d, key).Some?
    ensures Put(d, key, Get(d, key).value) == d
  {
    if d[0].0 != key {
      PutSame(d[1..], key);
    }
  }

  /** `for x in v`: a list yields its items, a string its characters, a dict its keys. */
  function Iter(v: Value): (r: Result<seq<Value>, Exc>)
    ensures r.Failure? <==> !(v.List? || v.Str? || v.Dict?)
    ensures r.Failure? ==> r.error == TypeError
    ensures v.List? ==> r == Success(v.items)
    ensures r.Success? ==> |r.value| == (if v.List? then |v.items| else if v.Str? then |v.s| else |v.entries|)
  {
    match v
    case List(items) => Success(items)
    case Str(s) => Success(seq(|s|, i requires 0 <= i < |s| => Str([s[i]])))
    case Dict(entries) => Success(seq(|entries|, i requires 0 <= i < |entries| => Str(entries[i].0)))
    case _ => Failure(TypeError)
  }

  /** Whether `hash(v)` succeeds: lists and dicts are unhashable. */
  predicate Hashable(v: Value) {
    !(v.List? || v.Dict?)
  }

  /** A list of names as a list of string values. */
  function Strs(names: seq<string>): (r: seq<Value>)
    ensures |r| == |names|
    ensures forall k :: 0 <= k < |names| ==> r[k] == Str(names[k])
  {
    seq(|names|, k requires 0 <= k < |names| => Str(names[k]))
  }

  /** `v in names` for a list of strings: only a string equal to one of them is in it. */
  predicate IsIn(v: Value, names: seq<string>) {
    v.Str? && v.s in names
  }

  /** `int(v)`. */
  function ToInt(v: Value): (r: Result<int, Exc>)
    ensures v.Int? ==> r == Success(v.i)
    ensures v.Null? || v.List? || v.Dict? ==> r == Failure(TypeError)
    ensures r.Failure? ==> r.error == TypeError || r.error.ValueError?
  {
    match v
    case Int(i) => Success(i)
    case Bool(b) => Success(if b then 1 else 0)
    case Str(s) =>
      (match ParseInt(s)
       case Some(i) => Success(i)
       case None => Failure(ValueError("invalid literal for int() with base 10")))
    case _ => Failure(TypeError)
  }

  /** `int(str(i))` is `i`, so a limit given as decimal text reads as that number. */
  lemma ToIntOfText(i: int)
    ensures ToInt(Str(IntToString(i))) == Success(i)
  {
    ParseIntOfString(i);
  }
}
