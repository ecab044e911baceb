/** The dynamic values the GROBID helpers receive: the result of parsing the
    extraction service's JSON response, as Python sees it (dicts, lists,
    strings, integers, booleans and None), together with the two things the
    helpers do with such values: subscript them (`d[k]`) and iterate over
    them (`for e in v`). Python exceptions become `Err` results. */
module Json {

  datatype Value =
    | Null
    | Bool(b: bool)
    | Num(n: int)
    | Str(s: string)
    | Arr(items: seq<Value>)
    | Obj(fields: map<string, Value>)

  /** The exceptions a subscript or an iteration can raise. */
  datatype Error = KeyError(key: Value) | IndexError | TypeError

  /** A computation that either returns a value or raises. */
  datatype Result<T> = Ok(value: T) | Err(error: Error) {
    predicate IsFailure() { Err? }

    function PropagateFailure<U>(): Result<U>
      requires Err?
    {
      Err(error)
    }

    function Extract(): T
      requires Ok?
    {
      value
    }
  }

  /** Python truthiness: None, False, 0, "", [] and {} are false. */
  predicate Truthy(v: Value) {
    match v
    case Null => false
    case Bool(b) => b
    case Num(n) => n != 0
    case Str(s) => s != ""
    case Arr(a) => a != []
    case Obj(m) => m != map[]
  }

  /** `v` is a dict that has the key `k`. */
  predicate HasKey(v: Value, k: string) {
    v.Obj? && k in v.fields
  }

  /** What `v[k]` raises for a string key `k` that `v` lacks. */
  function MissingKeyError(v: Value, k: string): Error {
    if v.Obj? then KeyError(Str(k)) else TypeError
  }

  /** Values that can index a list or a string (bool is an int subclass). */
  predicate IsIndex(k: Value) {
    k.Num? || k.Bool?
  }

  function IndexOf(k: Value): int
    requires IsIndex(k)
  {
    if k.Num? then k.n else if k.b then 1 else 0
  }

  /** A Python index in `[-n, n)` as a position in `[0, n)`. */
  function Wrap(i: int, n: nat): (p: nat)
    requires -(n as int) <= i < n
    ensures p < n
    ensures p == i || p == i + n
  {
    if i < 0 then i + n else i
  }

  /** Python's `d[k]` on values parsed from JSON. Dict keys are always
      strings, so a non-string hashable key is simply absent; lists and
      strings take integer (or boolean) indices, negative ones counting
      from the end; every other combination raises TypeError. */
  function Subscript(d: Value, k: Value): (r: Result<Value>)
    ensures k.Str? ==> (r.Ok? <==> HasKey(d, k.s))
    ensures k.Str? && r.Ok? ==> r.value == d.fields[k.s]
    ensures k.Str? && r.Err? ==> r.error == MissingKeyError(d, k.s)
    ensures d.Obj? && !k.Str? ==> r == Err(if k.Arr? || k.Obj? then TypeError else KeyError(k))
    ensures d.Arr? && IsIndex(k) ==> (r.Ok? <==> -|d.items| <= IndexOf(k) < |d.items|)
    ensures d.Arr? && IsIndex(k) && r.Ok? ==> r.value == d.items[Wrap(IndexOf(k), |d.items|)]
    ensures d.Str? && IsIndex(k) ==> (r.Ok? <==> -|d.s| <= IndexOf(k) < |d.s|)
    ensures d.Str? && IsIndex(k) && r.Ok? ==> r.value == Str([d.s[Wrap(IndexOf(k), |d.s|)]])
    ensures (d.Arr? || d.Str?) && IsIndex(k) && r.Err? ==> r.error == IndexError
    ensures (d.Arr? || d.Str?) && !IsIndex(k) ==> r == Err(TypeError)
    ensures !(d.Obj? || d.Arr? || d.Str?) ==> r == Err(TypeError)
  {
    match d
    case Obj(m) =>
      if k.Arr? || k.Obj? then Err(TypeError)
      else if k.Str? && k.s in m then Ok(m[k.s])
      else Err(KeyError(k))
    case Arr(a) =>
      if !IsIndex(k) then Err(TypeError)
      else if -|a| <= IndexOf(k) < |a| then Ok(a[Wrap(IndexOf(k), |a|)])
      else Err(IndexError)
    case Str(s) =>
      if !IsIndex(k) then Err(TypeError)
      else if -|s| <= IndexOf(k) < |s| then Ok(Str([s[Wrap(IndexOf(k), |s|)]]))
      else Err(IndexError)
    case _ => Err(TypeError)
  }

  /** Values a `for` loop can run over. */
  predicate Iterable(v: Value) {
    v.Arr? || v.Str? || v.Obj?
  }

  /** Iterating a string yields its characters as one-character strings. */
  function Chars(s: string): seq<Value> {
    seq(|s|, i requires 0 <= i < |s| => Str([s[i]]))
  }

  /** `ks` lists every key of `m` exactly once, as strings. */
  ghost predicate KeyEnumeration(m: map<string, Value>, ks: seq<Value>) {
    (forall i :: 0 <= i < |ks| ==> ks[i].Str? && ks[i].s in m) &&
    (forall i, j :: 0 <= i < j < |ks| ==> ks[i] != ks[j]) &&
    (forall k :: k in m ==> Str(k) in ks)
  }

  /** The elements `for e in v` visits: a list's items, a string's
      characters, or a dict's keys (in insertion order in Python; a map has
      none, so the order here is left open). Anything else raises TypeError. */
  method Iterate(v: Value) returns (r: Result<seq<Value>>)
    ensures r.Ok? <==> Iterable(v)
    ensures !Iterable(v) ==> r == Err(TypeError)
    ensures v.Arr? ==> r == Ok(v.items)
    ensures v.Str? ==> r == Ok(Chars(v.s))
    ensures v.Obj? ==> r.Ok? && |r.value| == |v.fields| && KeyEnumeration(v.fields, r.value)
  {
    match v
    case Arr(a) => return Ok(a);
    case Str(s) => return Ok(Chars(s));
    case Obj(m) =>
      var rest := m.Keys;
      var ks: seq<Value> := [];
      while rest != {}
        invariant rest <= m.Keys
        invariant |ks| + |rest| == |m|
        invariant forall i :: 0 <= i < |ks| ==> ks[i].Str? && ks[i].s in m && ks[i].s !in rest
        invariant forall i, j :: 0 <= i < j < |ks| ==> ks[i] != ks[j]
        invariant forall k :: k in m && k !in rest ==> Str(k) in ks
        decreases rest
      {
        var k :| k in rest;
        ks := ks + [Str(k)];
        rest := rest - {k};
      }
      return Ok(ks);
    case _ => return Err(TypeError);
  }
}
