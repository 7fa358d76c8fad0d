/** JavaScript values as the bridge receives them, and the runtime operations
    the bridge applies to them: String() conversion, truthiness, `typeof`,
    named property access and Array.prototype.join. */
module JsValues {

  /** A JavaScript value. Integral numbers only. An error or a plain object
      carries the text String() produces for it (its toString, which the
      runtime and the program define); an object's own enumerable properties
      are listed in the engine's iteration order. */
  datatype Value =
    | Str(s: string)
    | Num(n: int)
    | Bool(b: bool)
    | Null
    | Undef
    | Err(text: string, stack: Value)
    | Obj(props: seq<(string, Value)>, text: string)
    | Arr(elems: seq<Value>)

  /** No key occurs twice: what holds of a JavaScript object's own keys. */
  ghost predicate DistinctKeys<T>(pairs: seq<(string, T)>)
  {
    forall i, j :: 0 <= i < j < |pairs| ==> pairs[i].0 != pairs[j].0
  }

  /** Number.MAX_SAFE_INTEGER: every integer up to it in magnitude is a
      JavaScript number, and integers beyond it are not all representable. */
  const MaxSafeInteger: int := 9007199254740991

  /** A value a JavaScript engine can actually build: every number is a safe
      integer, and every object's keys are unique, at every depth. */
  ghost predicate WellFormed(v: Value)
    decreases v
  {
    match v
    case Num(n) => -MaxSafeInteger <= n <= MaxSafeInteger
    case Err(_, stack) => WellFormed(stack)
    case Obj(props, _) =>
      && DistinctKeys(props)
      && forall i :: 0 <= i < |props| ==> WellFormed(props[i].1)
    case Arr(elems) => forall i :: 0 <= i < |elems| ==> WellFormed(elems[i])
    case _ => true
  }

  // ---------------------------------------------------------------------------
  // Decimal rendering of numbers

  function DigitChar(d: nat): char
    requires d < 10
  {
    (d + '0' as int) as char
  }

  predicate IsDigits(s: string)
  {
    forall i :: 0 <= i < |s| ==> '0' <= s[i] <= '9'
  }

  /** Decimal rendering of a natural number, as String() gives it. */
  function NatToString(n: nat): (r: string)
    ensures |r| >= 1 && IsDigits(r)
    ensures (r[0] == '0') == (n == 0)
    decreases n
  {
    if n < 10 then [DigitChar(n)] else NatToString(n / 10) + [DigitChar(n % 10)]
  }

  /** The number a string of decimal digits denotes, read left to right. */
  function DigitsValue(s: string): nat
    requires IsDigits(s)
  {
    if |s| == 0 then 0 else 10 * DigitsValue(s[..|s| - 1]) + (s[|s| - 1] as int - '0' as int)
  }

  /** Reading back the rendering of n gives n. */
  lemma {:induction false} DigitsValueOfNatToString(n: nat)
    ensures DigitsValue(NatToString(n)) == n
    decreases n
  {
    var s := NatToString(n);
    if n < 10 {
      assert s[..|s| - 1] == [];
    } else {
      assert s[..|s| - 1] == NatToString(n / 10);
      DigitsValueOfNatToString(n / 10);
    }
  }

  /** Decimal rendering of an integer, with a leading '-' when negative. */
  function IntToString(n: int): string
  {
    if n < 0 then "-" + NatToString(-n) else NatToString(n)
  }

  /** Inverse of IntToString on its image. */
  function ParseInt(s: string): int
  {
    if |s| > 0 && s[0] == '-' && IsDigits(s[1..]) then -(DigitsValue(s[1..]) as int)
    else if IsDigits(s) then DigitsValue(s)
    else 0
  }

  /** String() of integers is reversible: parsing the text gives the number back. */
  lemma IntToStringRoundTrip(n: int)
    ensures ParseInt(IntToString(n)) == n
  {
    if n < 0 {
      var s := IntToString(n);
      assert s[1..] == NatToString(-n);
      DigitsValueOfNatToString(-n);
    } else {
      DigitsValueOfNatToString(n);
    }
  }

  /** Distinct numbers have distinct String() texts. */
  lemma IntToStringInjective(a: int, b: int)
    ensures IntToString(a) == IntToString(b) ==> a == b
  {
    IntToStringRoundTrip(a);
    IntToStringRoundTrip(b);
  }

  // ---------------------------------------------------------------------------
  // Array.prototype.join

  /** Array.prototype.join of already converted elements with separator sep. */
  function Join(parts: seq<string>, sep: string): string
  {
    if |parts| == 0 then ""
    else if |parts| == 1 then parts[0]
    else parts[0] + sep + Join(parts[1..], sep)
  }

  /** Where parts[i] starts in Join(parts, sep): every earlier part and its separator before it. */
  function Offset(parts: seq<string>, sep: string, i: nat): nat
    requires i <= |parts|
  {
    if i == 0 then 0 else Offset(parts, sep, i - 1) + |parts[i - 1]| + |sep|
  }

  lemma {:induction false} OffsetOfTail(parts: seq<string>, sep: string, i: nat)
    requires 1 <= i <= |parts|
    ensures Offset(parts, sep, i) == |parts[0]| + |sep| + Offset(parts[1..], sep, i - 1)
    decreases i
  {
    if i > 1 {
      OffsetOfTail(parts, sep, i - 1);
    }
  }

  /** A slice of a + b that lies inside b is a slice of b. */
  lemma SliceAfterPrefix(a: string, b: string, x: nat, y: nat)
    requires x <= y <= |b|
    ensures (a + b)[|a| + x..|a| + y] == b[x..y]
  {
    assert forall t :: 0 <= t < y - x ==> (a + b)[|a| + x..|a| + y][t] == b[x..y][t];
  }

  /** Join(parts, sep) holds each part at its offset. */
  lemma {:induction false} JoinPartAt(parts: seq<string>, sep: string, i: nat)
    requires i < |parts|
    ensures Offset(parts, sep, i) + |parts[i]| <= |Join(parts, sep)|
    ensures Join(parts, sep)[Offset(parts, sep, i)..Offset(parts, sep, i) + |parts[i]|] == parts[i]
    decreases |parts|
  {
    if |parts| > 1 {
      var pre := parts[0] + sep;
      assert Join(parts, sep) == pre + Join(parts[1..], sep);
      if i == 0 {
        assert (parts[0] + (sep + Join(parts[1..], sep)))[..|parts[0]|] == parts[0];
      } else {
        JoinPartAt(parts[1..], sep, i - 1);
        OffsetOfTail(parts, sep, i);
        assert parts[1..][i - 1] == parts[i];
        var o := Offset(parts[1..], sep, i - 1);
        SliceAfterPrefix(pre, Join(parts[1..], sep), o, o + |parts[i]|);
      }
    }
  }

  /** Join(parts, sep) holds a separator after every part but the last. */
  lemma {:induction false} JoinSepAfter(parts: seq<string>, sep: string, i: nat)
    requires i + 1 < |parts|
    ensures Offset(parts, sep, i + 1) <= |Join(parts, sep)|
    ensures Join(parts, sep)[Offset(parts, sep, i) + |parts[i]|..Offset(parts, sep, i + 1)] == sep
    decreases |parts|
  {
    var pre := parts[0] + sep;
    var rest := Join(parts[1..], sep);
    assert Join(parts, sep) == pre + rest;
    if i > 0 {
      JoinSepAfter(parts[1..], sep, i - 1);
      OffsetOfTail(parts, sep, i);
      OffsetOfTail(parts, sep, i + 1);
      assert parts[1..][i - 1] == parts[i];
      var o := Offset(parts[1..], sep, i - 1) + |parts[i]|;
      SliceAfterPrefix(pre, rest, o, Offset(parts[1..], sep, i));
    }
  }

  /** Join(parts, sep) ends right after its last part. */
  lemma {:induction false} JoinLength(parts: seq<string>, sep: string)
    requires |parts| > 0
    ensures |Join(parts, sep)| == Offset(parts, sep, |parts| - 1) + |parts[|parts| - 1]|
    decreases |parts|
  {
    if |parts| > 1 {
      JoinLength(parts[1..], sep);
      OffsetOfTail(parts, sep, |parts| - 1);
    }
  }

  /** Joining no parts gives the empty text, one part gives that part. */
  lemma JoinSmall(parts: seq<string>, sep: string)
    ensures |parts| == 0 ==> Join(parts, sep) == ""
    ensures |parts| == 1 ==> Join(parts, sep) == parts[0]
  {
  }

  // ---------------------------------------------------------------------------
  // String(), truthiness, typeof, property access

  /** String(v). Array.prototype.toString joins the elements with "," and
      renders null and undefined elements as the empty text. */
  function ToStr(v: Value): string
    decreases v
  {
    match v
    case Str(s) => s
    case Num(n) => IntToString(n)
    case Bool(b) => if b then "true" else "false"
    case Null => "null"
    case Undef => "undefined"
    case Err(text, _) => text
    case Obj(_, text) => text
    case Arr(elems) =>
      Join(seq(|elems|, i requires 0 <= i < |elems| =>
             if elems[i].Null? || elems[i].Undef? then "" else ToStr(elems[i])), ",")
  }

  /** JavaScript truthiness (`if (v)`, `v && w`). */
  predicate Truthy(v: Value)
  {
    match v
    case Str(s) => s != ""
    case Num(n) => n != 0
    case Bool(b) => b
    case Null => false
    case Undef => false
    case _ => true
  }

  /** `typeof v === 'object'`: true of null too. */
  predicate IsObjectType(v: Value)
  {
    v.Null? || v.Obj? || v.Arr? || v.Err?
  }

  /** The value of the first property named key, or undefined. */
  function Lookup(props: seq<(string, Value)>, key: string): Value
  {
    if |props| == 0 then Undef
    else if props[0].0 == key then props[0].1
    else Lookup(props[1..], key)
  }

  /** `v[key]` for a named (non-index) property: an object's own property, an
      error's `stack`, and undefined on every other value. */
  function Get(v: Value, key: string): Value
  {
    match v
    case Obj(props, _) => Lookup(props, key)
    case Err(_, stack) => if key == "stack" then stack else Undef
    case _ => Undef
  }

  /** Lookup finds exactly the property listed under key, when keys are unique. */
  lemma {:induction false} LookupAt(props: seq<(string, Value)>, i: nat)
    requires DistinctKeys(props) && i < |props|
    ensures Lookup(props, props[i].0) == props[i].1
  {
    if i > 0 {
      assert props[0].0 != props[i].0;
      assert props[1..][i - 1] == props[i];
      LookupAt(props[1..], i - 1);
    }
  }

  /** Lookup of a key no property has is undefined. */
  lemma {:induction false} LookupAbsent(props: seq<(string, Value)>, key: string)
    requires forall i :: 0 <= i < |props| ==> props[i].0 != key
    ensures Lookup(props, key) == Undef
  {
    if |props| > 0 {
      assert forall i :: 0 <= i < |props[1..]| ==> props[1..][i] == props[i + 1];
      LookupAbsent(props[1..], key);
    }
  }
}
