/** The slice of JavaScript value semantics that the dashboard's code relies on:
    values as they arrive from parsed JSON payloads and component props, the
    nullish (`??`) and falsy (`||`) fallbacks, property and index access, and
    decimal rendering of non-negative integers. */
module Js {

  datatype Option<+T> = None | Some(value: T)

  /** A JavaScript value. `Obj` holds an object's own enumerable properties;
      `NaN` is the one number that is not a real. */
  datatype JsValue =
    | Undefined
    | Null
    | Bool(b: bool)
    | Num(n: real)
    | NaN
    | Str(s: string)
    | Arr(items: seq<JsValue>)
    | Obj(props: map<string, JsValue>)

  /** A thrown Error object, by its `name` and `message`. */
  datatype Failure = Failure(name: string, message: string)

  /** A settled promise: fulfilled with a value, or rejected with an error. */
  datatype Outcome<+T> = Ok(value: T) | Err(error: Failure)

  predicate IsNullish(v: JsValue) {
    v.Undefined? || v.Null?
  }

  /** JavaScript's falsy values: undefined, null, false, 0, NaN and "". */
  predicate IsFalsy(v: JsValue) {
    match v
    case Undefined => true
    case Null => true
    case Bool(b) => !b
    case Num(n) => n == 0.0
    case NaN => true
    case Str(s) => s == []
    case _ => false
  }

  predicate IsTruthy(v: JsValue) {
    !IsFalsy(v)
  }

  /** `a ?? b` */
  function Coalesce(a: JsValue, b: JsValue): JsValue {
    if IsNullish(a) then b else a
  }

  /** `a || b` */
  function Or(a: JsValue, b: JsValue): JsValue {
    if IsFalsy(a) then b else a
  }

  /** `v[key]` on a value that is not null or undefined (reading a property of
      those throws, which callers model themselves). Arrays and strings expose
      only `length` here. */
  function Get(v: JsValue, key: string): JsValue {
    match v
    case Obj(props) => if key in props then props[key] else Undefined
    case Arr(items) => if key == "length" then Num(|items| as real) else Undefined
    case Str(s) => if key == "length" then Num(|s| as real) else Undefined
    case _ => Undefined
  }

  /** `v[k0] ?? v[k1] ?? ... ?? fallback`: the first alias whose value is
      neither null nor undefined. */
  function FirstNonNullish(v: JsValue, keys: seq<string>, fallback: JsValue): JsValue
    decreases |keys|
  {
    if keys == [] then fallback
    else Coalesce(Get(v, keys[0]), FirstNonNullish(v, keys[1..], fallback))
  }

  /** `v[k0] || v[k1] || ... || fallback`: the first alias whose value is truthy. */
  function FirstTruthy(v: JsValue, keys: seq<string>, fallback: JsValue): JsValue
    decreases |keys|
  {
    if keys == [] then fallback
    else Or(Get(v, keys[0]), FirstTruthy(v, keys[1..], fallback))
  }

  /** The `??` chain returns the value of the first alias that is present, and
      the fallback exactly when no alias is present. */
  lemma {:induction false} FirstNonNullishWins(v: JsValue, keys: seq<string>, fallback: JsValue, i: nat)
    requires i <= |keys|
    requires forall j | 0 <= j < i :: IsNullish(Get(v, keys[j]))
    ensures i < |keys| && !IsNullish(Get(v, keys[i])) ==> FirstNonNullish(v, keys, fallback) == Get(v, keys[i])
    ensures i == |keys| ==> FirstNonNullish(v, keys, fallback) == fallback
    decreases i
  {
    if i > 0 {
      assert IsNullish(Get(v, keys[0]));
      forall j | 0 <= j < i - 1 ensures IsNullish(Get(v, keys[1..][j])) {
        assert keys[1..][j] == keys[j + 1];
      }
      FirstNonNullishWins(v, keys[1..], fallback, i - 1);
    }
  }

  /** The `||` chain skips every falsy alias, so a present 0 or "" is replaced
      by a later alias or the fallback. */
  lemma {:induction false} FirstTruthyWins(v: JsValue, keys: seq<string>, fallback: JsValue, i: nat)
    requires i <= |keys|
    requires forall j | 0 <= j < i :: IsFalsy(Get(v, keys[j]))
    ensures i < |keys| && IsTruthy(Get(v, keys[i])) ==> FirstTruthy(v, keys, fallback) == Get(v, keys[i])
    ensures i == |keys| ==> FirstTruthy(v, keys, fallback) == fallback
    decreases i
  {
    if i > 0 {
      assert IsFalsy(Get(v, keys[0]));
      forall j | 0 <= j < i - 1 ensures IsFalsy(Get(v, keys[1..][j])) {
        assert keys[1..][j] == keys[j + 1];
      }
      FirstTruthyWins(v, keys[1..], fallback, i - 1);
    }
  }

  /** An alias that already occurs earlier in a `??` chain never changes the
      result, so it may be dropped. */
  lemma {:induction false} RepeatedAliasIsInert(v: JsValue, keys: seq<string>, fallback: JsValue, i: nat)
    requires i < |keys|
    requires keys[i] in keys[..i]
    ensures FirstNonNullish(v, keys[..i] + keys[i + 1..], fallback) == FirstNonNullish(v, keys, fallback)
    decreases i
  {
    var dropped := keys[..i] + keys[i + 1..];
    assert i > 0;
    assert dropped[0] == keys[0];
    assert dropped[1..] == keys[1..][..i - 1] + keys[1..][i..];
    if keys[0] == keys[i] {
      // the repeated alias was already consulted as the first one
      if IsNullish(Get(v, keys[0])) {
        assert FirstNonNullish(v, keys[1..], fallback) == FirstNonNullish(v, dropped[1..], fallback) by {
          SkipNullishAlias(v, keys[1..], fallback, i - 1);
        }
      }
    } else {
      assert keys[1..][i - 1] == keys[i];
      assert keys[i] in keys[1..][..i - 1] by {
        var j :| 0 <= j < i && keys[..i][j] == keys[i];
        assert j != 0;
        assert keys[1..][..i - 1][j - 1] == keys[i];
      }
      RepeatedAliasIsInert(v, keys[1..], fallback, i - 1);
      assert keys[1..][..i - 1] + keys[1..][i..] == dropped[1..];
    }
  }

  /** Dropping an alias whose value is null or undefined leaves the chain's result unchanged. */
  lemma {:induction false} SkipNullishAlias(v: JsValue, keys: seq<string>, fallback: JsValue, i: nat)
    requires i < |keys|
    requires IsNullish(Get(v, keys[i]))
    ensures FirstNonNullish(v, keys[..i] + keys[i + 1..], fallback) == FirstNonNullish(v, keys, fallback)
    decreases i
  {
    var dropped := keys[..i] + keys[i + 1..];
    if i == 0 {
      assert dropped == keys[1..];
    } else {
      assert dropped[0] == keys[0];
      assert dropped[1..] == keys[1..][..i - 1] + keys[1..][i..];
      assert keys[1..][i - 1] == keys[i];
      SkipNullishAlias(v, keys[1..], fallback, i - 1);
    }
  }

  // ----- decimal rendering of non-negative integers -----

  function Digit(d: nat): (c: char)
    requires d < 10
  {
    ('0' as int + d) as char
  }

  predicate IsDigits(s: string) {
    forall i | 0 <= i < |s| :: '0' <= s[i] <= '9'
  }

  /** `String(n)` for a non-negative integer below 10^21 (the range where
      JavaScript prints plain decimal digits). */
  function NatText(n: nat): (r: string)
    ensures r != [] && IsDigits(r)
    decreases n
  {
    if n < 10 then [Digit(n)] else NatText(n / 10) + [Digit(n % 10)]
  }

  /** The number a string of decimal digits denotes. */
  function DigitsValue(s: string): nat
    requires IsDigits(s)
    decreases |s|
  {
    if s == [] then 0 else DigitsValue(s[..|s| - 1]) * 10 + (s[|s| - 1] as int - '0' as int)
  }

  /** Reading back the rendered digits gives the number again. */
  lemma {:induction false} NatTextRoundTrip(n: nat)
    ensures DigitsValue(NatText(n)) == n
    decreases n
  {
    if n >= 10 {
      var t := NatText(n);
      assert t[..|t| - 1] == NatText(n / 10);
      NatTextRoundTrip(n / 10);
    }
  }

  /** Distinct numbers render to distinct strings. */
  lemma NatTextInjective(a: nat, b: nat)
    ensures NatText(a) == NatText(b) ==> a == b
  {
    NatTextRoundTrip(a);
    NatTextRoundTrip(b);
  }

  // ----- reading and assigning through an index -----

  /** `Array.isArray(v) ? v : []` */
  function ItemsOrEmpty(v: JsValue): (items: seq<JsValue>)
    ensures v.Arr? ==> items == v.items
    ensures !v.Arr? ==> items == []
  {
    if v.Arr? then v.items else []
  }

  /** `items[i]` on an array: undefined past the end. */
  function At(items: seq<JsValue>, i: nat): JsValue {
    if i < |items| then items[i] else Undefined
  }

  /** `v[i]`: array cells, string characters, an object's property `String(i)`;
      undefined on other primitives; `None` on null and undefined, where the
      read throws a TypeError. */
  function Index(v: JsValue, i: nat): Option<JsValue> {
    match v
    case Undefined => None
    case Null => None
    case Arr(items) => Some(At(items, i))
    case Str(s) => Some(if i < |s| then Str([s[i]]) else Undefined)
    case Obj(props) => Some(if NatText(i) in props then props[NatText(i)] else Undefined)
    case _ => Some(Undefined)
  }

  function Holes(k: nat): (r: seq<JsValue>)
    ensures |r| == k && forall j | 0 <= j < k :: r[j] == Undefined
  {
    seq(k, _ => Undefined)
  }

  /** `items[i] = v` on an array: the array grows to hold index `i`, and the
      gap it opens reads as undefined. */
  function SetAt(items: seq<JsValue>, i: nat, v: JsValue): (r: seq<JsValue>)
    ensures |r| == (if i < |items| then |items| else i + 1)
    ensures r[i] == v
    ensures forall j | 0 <= j < |r| && j != i :: r[j] == At(items, j)
  {
    if i < |items| then items[i := v] else items + Holes(i - |items|) + [v]
  }

  /** `target[i] = v` in strict-mode code: an array is updated as `SetAt`
      says, an object gains the property `String(i)`, and on null, undefined
      or a primitive the assignment throws a TypeError (`None`). */
  function AssignIndex(target: JsValue, i: nat, v: JsValue): Option<JsValue> {
    match target
    case Arr(items) => Some(Arr(SetAt(items, i, v)))
    case Obj(props) => Some(Obj(props[NatText(i) := v]))
    case _ => None
  }

  /** Reading back an index just assigned gives the assigned value. */
  lemma AssignThenIndex(target: JsValue, i: nat, v: JsValue)
    requires AssignIndex(target, i, v).Some?
    ensures Index(AssignIndex(target, i, v).value, i) == Some(v)
  {
  }

  /** `xs.map(f)` with a callback that may throw (`None`): the positions
      passed to `f` count from `base`, and the first throw aborts the map. */
  function MapOrThrow<T>(xs: seq<JsValue>, f: (nat, JsValue) -> Option<T>, base: nat): (r: Option<seq<T>>)
    ensures r.Some? <==> forall i | 0 <= i < |xs| :: f(base + i, xs[i]).Some?
    ensures r.Some? ==> |r.value| == |xs| && forall i | 0 <= i < |xs| :: r.value[i] == f(base + i, xs[i]).value
    decreases |xs|
  {
    if xs == [] then Some([])
    else match f(base, xs[0])
      case None => None
      case Some(y) =>
        match MapOrThrow(xs[1..], f, base + 1)
        case None => None
        case Some(ys) => Some([y] + ys)
  }

  // ----- strings -----

  /** `s.includes(sub)` */
  predicate Contains(s: string, sub: string)
    decreases |s|
  {
    (|sub| <= |s| && s[..|sub|] == sub) || (|s| > 0 && Contains(s[1..], sub))
  }

  function LowerChar(c: char): char {
    if 'A' <= c <= 'Z' then (c as int + 32) as char else c
  }

  /** `s.toLowerCase()` restricted to ASCII letters. */
  function ToLower(s: string): (r: string)
    ensures |r| == |s| && forall i | 0 <= i < |s| :: r[i] == LowerChar(s[i])
  {
    seq(|s|, i requires 0 <= i < |s| => LowerChar(s[i]))
  }

  /** `s.join(sep)` */
  function Join(parts: seq<string>, sep: string): string
    decreases |parts|
  {
    if parts == [] then []
    else if |parts| == 1 then parts[0]
    else parts[0] + sep + Join(parts[1..], sep)
  }

  /** `err.message || String(err)` for an Error object: its message, or its
      name when the message is empty. */
  function MessageOrName(e: Failure): string {
    if e.message != [] then e.message else e.name
  }
}
