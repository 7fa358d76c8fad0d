/** How the bridge walks over a value: lodash's `_.forEach` / `_.map`, the
    built-in `Object.keys`, and the object the bridge fills one key at a time
    while it walks. */
module Iteration {
  import opened JsValues

  /** lodash's isArrayLike: strings, arrays, and objects whose `length` is a
      non-negative integral number no larger than MaxSafeInteger. */
  predicate IsArrayLike(v: Value)
  {
    match v
    case Str(_) => true
    case Arr(_) => true
    case Obj(props, _) =>
      var len := Lookup(props, "length");
      len.Num? && 0 <= len.n <= MaxSafeInteger
    case _ => false
  }

  /** The `length` of an array-like value. */
  function ArrayLength(v: Value): nat
    requires IsArrayLike(v)
  {
    match v
    case Str(s) => |s|
    case Arr(elems) => |elems|
    case Obj(props, _) => Lookup(props, "length").n
  }

  /** `Object(v)[i]` for an array-like value: a one-character string, an
      element, or the object's property named by the index. */
  function ElementAt(v: Value, i: nat): Value
    requires IsArrayLike(v)
  {
    match v
    case Str(s) => if i < |s| then Str([s[i]]) else Undef
    case Arr(elems) => if i < |elems| then elems[i] else Undef
    case Obj(props, _) => Lookup(props, NatToString(i))
  }

  /** The (key, value) pairs `_.forEach(v, f)` and `_.map(v, f)` hand to f, in
      order. Array-like values are walked by index (the key is the number);
      other objects by their own enumerable keys; null, undefined, numbers,
      booleans and errors yield nothing. */
  function Entries(v: Value): seq<(Value, Value)>
  {
    if IsArrayLike(v) then
      seq(ArrayLength(v), i requires 0 <= i < ArrayLength(v) => (Num(i), ElementAt(v, i)))
    else if v.Obj? then
      seq(|v.props|, i requires 0 <= i < |v.props| => (Str(v.props[i].0), v.props[i].1))
    else
      []
  }

  /** `Object.keys(v)` with each key's value `v[key]`, for a non-null object. */
  function OwnEntries(v: Value): seq<(string, Value)>
    requires IsObjectType(v) && !v.Null?
  {
    match v
    case Obj(props, _) => props
    case Arr(elems) => seq(|elems|, i requires 0 <= i < |elems| => (NatToString(i), elems[i]))
    case Err(_, _) => []
  }

  /** Each pair with its key and value passed through String(). */
  function StringifyEntries(entries: seq<(Value, Value)>): (r: seq<(string, string)>)
    ensures |r| == |entries|
  {
    seq(|entries|, i requires 0 <= i < |entries| => (ToStr(entries[i].0), ToStr(entries[i].1)))
  }

  /** Each pair with its value passed through String(). */
  function StringifyValues(entries: seq<(string, Value)>): (r: seq<(string, string)>)
    ensures |r| == |entries|
  {
    seq(|entries|, i requires 0 <= i < |entries| => (entries[i].0, ToStr(entries[i].1)))
  }

  /** The object `{}` after `o[k] = w` for each pair (k, w) in turn. */
  function MapOf(pairs: seq<(string, string)>): map<string, string>
  {
    if |pairs| == 0 then map[]
    else MapOf(pairs[..|pairs| - 1])[pairs[|pairs| - 1].0 := pairs[|pairs| - 1].1]
  }

  /** Filling with one or two pairs. */
  lemma MapOfShort(a: (string, string), b: (string, string))
    ensures MapOf([a]) == map[a.0 := a.1]
    ensures MapOf([a, b]) == map[a.0 := a.1, b.0 := b.1]
  {
    assert [a, b][..1] == [a];
    assert [a][..0] == [];
  }

  /** The filled object has exactly the keys that were assigned. */
  lemma {:induction false} MapOfKeys(pairs: seq<(string, string)>)
    ensures MapOf(pairs).Keys == set i | 0 <= i < |pairs| :: pairs[i].0
  {
    if |pairs| > 0 {
      var init := pairs[..|pairs| - 1];
      MapOfKeys(init);
      assert forall i :: 0 <= i < |init| ==> init[i] == pairs[i];
    }
  }

  /** A key holds the value of its last assignment. */
  lemma {:induction false} MapOfLastWins(pairs: seq<(string, string)>, i: nat)
    requires i < |pairs|
    requires forall j :: i < j < |pairs| ==> pairs[j].0 != pairs[i].0
    ensures pairs[i].0 in MapOf(pairs) && MapOf(pairs)[pairs[i].0] == pairs[i].1
  {
    if i < |pairs| - 1 {
      var init := pairs[..|pairs| - 1];
      assert init[i] == pairs[i];
      MapOfLastWins(init, i);
    }
  }

  /** With unique keys, the filled object has one entry per pair, holding that pair's value. */
  lemma {:induction false} MapOfDistinct(pairs: seq<(string, string)>)
    requires DistinctKeys(pairs)
    ensures |MapOf(pairs)| == |pairs|
    ensures forall i :: 0 <= i < |pairs| ==> pairs[i].0 in MapOf(pairs) && MapOf(pairs)[pairs[i].0] == pairs[i].1
  {
    forall i | 0 <= i < |pairs|
      ensures pairs[i].0 in MapOf(pairs) && MapOf(pairs)[pairs[i].0] == pairs[i].1
    {
      MapOfLastWins(pairs, i);
    }
    if |pairs| > 0 {
      var init := pairs[..|pairs| - 1];
      var last := pairs[|pairs| - 1];
      assert DistinctKeys(init) by {
        assert forall i :: 0 <= i < |init| ==> init[i] == pairs[i];
      }
      MapOfDistinct(init);
      MapOfKeys(init);
      assert last.0 !in MapOf(init) by {
        assert forall i :: 0 <= i < |init| ==> init[i].0 == pairs[i].0 != last.0;
      }
      assert MapOf(pairs).Keys == MapOf(init).Keys + {last.0};
    }
  }

  /** With unique keys, the filled object holds one entry per pair, under exactly
      the pairs' keys. */
  lemma MapOfExact(pairs: seq<(string, string)>)
    requires DistinctKeys(pairs)
    ensures |MapOf(pairs)| == |pairs|
    ensures MapOf(pairs).Keys == set i | 0 <= i < |pairs| :: pairs[i].0
    ensures forall i :: 0 <= i < |pairs| ==> MapOf(pairs)[pairs[i].0] == pairs[i].1
  {
    MapOfDistinct(pairs);
    MapOfKeys(pairs);
  }

  /** The keys `_.forEach` hands out are distinct once passed through String():
      indices render as distinct decimal texts, and an object's own keys are unique. */
  lemma EntriesKeysDistinct(v: Value)
    requires WellFormed(v)
    ensures DistinctKeys(StringifyEntries(Entries(v)))
  {
    var pairs := StringifyEntries(Entries(v));
    if IsArrayLike(v) {
      forall i, j | 0 <= i < j < |pairs|
        ensures pairs[i].0 != pairs[j].0
      {
        assert pairs[i].0 == IntToString(i) && pairs[j].0 == IntToString(j);
        IntToStringInjective(i, j);
      }
    }
  }

  /** The keys `Object.keys` returns are distinct. */
  lemma OwnEntriesKeysDistinct(v: Value)
    requires WellFormed(v) && IsObjectType(v) && !v.Null?
    ensures DistinctKeys(StringifyValues(OwnEntries(v)))
  {
    var pairs := StringifyValues(OwnEntries(v));
    if v.Arr? {
      forall i, j | 0 <= i < j < |pairs|
        ensures pairs[i].0 != pairs[j].0
      {
        assert pairs[i].0 == NatToString(i) && pairs[j].0 == NatToString(j);
        IntToStringInjective(i, j);
      }
    }
  }
}
