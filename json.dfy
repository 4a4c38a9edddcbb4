/** Decoded JSON as the client sees it after `response.json()`, and the Python
    operations the mappers apply to it: `key in v`, `v[key]`, iteration with
    `for x in v`, and truth testing. */
module Json {
  import opened Py

  /** A decoded JSON value. `Null` is Python's `None`. An object is a Python
      dict: its members in the order the text gives them. A key the text gives
      twice is held with its last value, as `json.loads` keeps it (see
      `Lookup`). */
  datatype Value =
    | Null
    | Boolean(b: bool)
    | Number(n: int)
    | String(s: string)
    | Array(items: seq<Value>)
    | Object(members: seq<(string, Value)>)

  /** The value a dict holds for `key`, if it holds the key: the value of the
      last member with that key. */
  function Lookup(members: seq<(string, Value)>, key: string): (r: Option<Value>)
    ensures r.None? <==> forall i :: 0 <= i < |members| ==> members[i].0 != key
    ensures r.Some? ==>
      exists i :: 0 <= i < |members| && members[i] == (key, r.value) &&
        (forall j :: i < j < |members| ==> members[j].0 != key)
  {
    if members == [] then None
    else if members[|members| - 1].0 == key then Some(members[|members| - 1].1)
    else Lookup(members[..|members| - 1], key)
  }

  /** Whether `needle` occurs in `haystack` as a contiguous piece. */
  predicate IsSubstring(needle: string, haystack: string)
  {
    needle <= haystack || (haystack != [] && IsSubstring(needle, haystack[1..]))
  }

  /** Python's truth value of a decoded JSON value. */
  predicate Truthy(v: Value)
  {
    match v
    case Null => false
    case Boolean(b) => b
    case Number(n) => n != 0
    case String(s) => s != []
    case Array(items) => items != []
    case Object(members) => members != []
  }

  /** `key in v`: a key test on a dict, an element test on a list, a substring
      test on a str; `None`, numbers and booleans raise TypeError. */
  function Contains(v: Value, key: string): Result<bool>
  {
    match v
    case Object(members) => Success(Lookup(members, key).Some?)
    case Array(items) => Success(String(key) in items)
    case String(s) => Success(IsSubstring(key, s))
    case _ => Failure(TypeError)
  }

  /** `v[key]` with a str key: KeyError on a dict without the key, TypeError on
      anything but a dict. */
  function Get(v: Value, key: string): (r: Result<Value>)
    ensures r.Success? <==> v.Object? && Lookup(v.members, key).Some?
    ensures r.Success? ==> Lookup(v.members, key) == Some(r.value)
    ensures v.Object? && Lookup(v.members, key).None? ==> r == Failure(KeyError(key))
    ensures !v.Object? ==> r == Failure(TypeError)
  {
    match v
    case Object(members) =>
      (match Lookup(members, key)
       case Some(x) => Success(x)
       case None => Failure(KeyError(key)))
    case _ => Failure(TypeError)
  }

  /** The value a dict holds for a key, or `None` when it does not hold it:
      what `v[key] if key in v else None` gives on a dict. */
  function OrNull(o: Option<Value>): Value
  {
    match o
    case Some(x) => x
    case None => Null
  }

  /** What `for x in v` visits: a list's elements, a dict's keys, a str's
      characters; anything else raises TypeError. */
  function Elements(v: Value): (r: Result<seq<Value>>)
    ensures v.Array? ==> r == Success(v.items)
    ensures v.Null? || v.Boolean? || v.Number? ==> r == Failure(TypeError)
    ensures r.Success? ==> forall x :: x in r.value && !v.Array? ==> x.String?
  {
    match v
    case Array(items) => Success(items)
    case Object(members) => Success(seq(|members|, i requires 0 <= i < |members| => String(members[i].0)))
    case String(s) => Success(seq(|s|, i requires 0 <= i < |s| => String([s[i]])))
    case _ => Failure(TypeError)
  }

  /** `[f(x) for x in xs]`: maps in order, and the first element whose mapping
      raises makes the whole comprehension raise. */
  function MapAll<T>(xs: seq<Value>, f: Value -> Result<T>): (r: Result<seq<T>>)
  {
    if xs == [] then Success([])
    else
      var init :- MapAll(xs[..|xs| - 1], f);
      var last :- f(xs[|xs| - 1]);
      Success(init + [last])
  }

  /** A successful mapping maps every element, in order. */
  lemma {:induction false} MapAllSuccess<T>(xs: seq<Value>, f: Value -> Result<T>)
    ensures MapAll(xs, f).Success? <==> forall i :: 0 <= i < |xs| ==> f(xs[i]).Success?
    ensures MapAll(xs, f).Success? ==>
      |MapAll(xs, f).value| == |xs| && forall i :: 0 <= i < |xs| ==> f(xs[i]) == Success(MapAll(xs, f).value[i])
  {
    if xs != [] {
      var init := xs[..|xs| - 1];
      MapAllSuccess(init, f);
      assert forall i :: 0 <= i < |init| ==> init[i] == xs[i];
    }
  }

  /** A failed mapping raises what the first failing element raises. */
  lemma {:induction false} MapAllFailure<T>(xs: seq<Value>, f: Value -> Result<T>, k: nat)
    requires k < |xs| && f(xs[k]).Failure?
    requires forall i :: 0 <= i < k ==> f(xs[i]).Success?
    ensures MapAll(xs, f) == Failure(f(xs[k]).error)
  {
    var init := xs[..|xs| - 1];
    if k < |init| {
      assert init[k] == xs[k];
      MapAllFailure(init, f, k);
    } else {
      MapAllSuccess(init, f);
    }
  }

  /** A loop that has mapped `xs[..i]` and then fails on `xs[i]` raises what
      the whole comprehension raises. */
  lemma MapAllStopsAt<T>(xs: seq<Value>, f: Value -> Result<T>, i: nat)
    requires i < |xs| && MapAll(xs[..i], f).Success? && f(xs[i]).Failure?
    ensures MapAll(xs, f) == Failure(f(xs[i]).error)
  {
    MapAllSuccess(xs[..i], f);
    assert forall j :: 0 <= j < i ==> xs[..i][j] == xs[j];
    MapAllFailure(xs, f, i);
  }
}
