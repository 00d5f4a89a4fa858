/** Decoded JSON values and the few Python operations the consumer applies to them. */
module Json {

  datatype Option<+T> = None | Some(value: T)

  /** A value as `json.loads` returns it (numbers are integers in this model). */
  datatype Value =
    | Null
    | Bool(b: bool)
    | Num(n: int)
    | Str(s: string)
    | Arr(items: seq<Value>)
    | Obj(fields: map<string, Value>)

  /** Python truthiness: `None`, `False`, `0`, `''`, `[]` and `{}` are falsy. */
  predicate Truthy(v: Value) {
    match v
    case Null => false
    case Bool(b) => b
    case Num(n) => n != 0
    case Str(s) => s != ""
    case Arr(a) => a != []
    case Obj(m) => m != map[]
  }

  /** The three ways `v[key]` can end for a string key. */
  datatype Lookup = Found(value: Value) | NoKey | NotDict

  /** `v[key]`: the entry of a dict, `KeyError` (NoKey) for a dict without it,
      `TypeError` (NotDict) for every other value. */
  function Get(v: Value, key: string): (r: Lookup)
    ensures r.Found? <==> v.Obj? && key in v.fields
    ensures r.Found? ==> r.value == v.fields[key]
    ensures r.NotDict? <==> !v.Obj?
  {
    match v
    case Obj(m) => if key in m then Found(m[key]) else NoKey
    case _ => NotDict
  }

  /** The values on which Python's `in` operator is defined here. */
  predicate IsContainer(v: Value) {
    v.Str? || v.Arr? || v.Obj?
  }

  /** `k` occurs as a contiguous piece of `s`. */
  predicate OccursIn(k: string, s: string)
    decreases |s|
  {
    if |s| < |k| then false
    else s[..|k|] == k || (|s| > 0 && OccursIn(k, s[1..]))
  }

  /** `k` occurs in `s` starting at index `i`. */
  predicate OccursAt(k: string, s: string, i: int) {
    0 <= i && i + |k| <= |s| && s[i..i + |k|] == k
  }

  lemma {:induction false} OccursInAt(k: string, s: string)
    ensures OccursIn(k, s) <==> exists i :: OccursAt(k, s, i)
    decreases |s|
  {
    if |s| >= |k| && |s| > 0 {
      OccursInAt(k, s[1..]);
      if OccursIn(k, s) {
        if s[..|k|] == k {
          assert OccursAt(k, s, 0);
        } else {
          var i :| OccursAt(k, s[1..], i);
          assert s[1..][i..i + |k|] == s[i + 1..i + 1 + |k|];
          assert OccursAt(k, s, i + 1);
        }
      }
      if exists i :: OccursAt(k, s, i) {
        var i :| OccursAt(k, s, i);
        if i > 0 {
          assert s[1..][i - 1..i - 1 + |k|] == s[i..i + |k|];
          assert OccursAt(k, s[1..], i - 1);
        }
      }
    } else if |s| >= |k| {
      assert OccursAt(k, s, 0);
    }
  }

  /** `key in v` for a string key: membership of a dict key, substring of a
      string, element of a list; `TypeError` (None) for null, booleans and numbers. */
  function Contains(v: Value, key: string): (r: Option<bool>)
    ensures r.None? <==> !IsContainer(v)
    ensures v.Obj? ==> r == Some(key in v.fields)
    ensures v.Arr? ==> r == Some(exists i :: 0 <= i < |v.items| && v.items[i] == Str(key))
    ensures v.Str? ==> r == Some(exists i :: OccursAt(key, v.s, i))
  {
    match v
    case Obj(m) => Some(key in m)
    case Str(s) => OccursInAt(key, s); Some(OccursIn(key, s))
    case Arr(a) => Some(Str(key) in a)
    case _ => None
  }

  /** The decimal digit character for `d`. */
  function Digit(d: nat): char
    requires d < 10
  {
    (48 + d) as char
  }

  predicate IsDigits(s: string) {
    forall i :: 0 <= i < |s| ==> '0' <= s[i] <= '9'
  }

  /** The number a string of decimal digits denotes, most significant first. */
  function DigitsValue(s: string): nat
    requires IsDigits(s)
    decreases |s|
  {
    if s == [] then 0 else 10 * DigitsValue(s[..|s| - 1]) + (s[|s| - 1] as int - 48)
  }

  /** `str(n)` for a non-negative integer: its decimal digits, without leading zeros. */
  function Decimal(n: nat): (r: string)
    ensures |r| > 0 && IsDigits(r)
    ensures DigitsValue(r) == n
    ensures r[0] == '0' ==> n == 0
    decreases n
  {
    if n < 10 then [Digit(n)]
    else
      var hi := Decimal(n / 10);
      var r := hi + [Digit(n % 10)];
      assert r[..|r| - 1] == hi;
      r
  }

  /** Python's `str(v)` as an f-string renders it; lists and dicts are abbreviated. */
  function Display(v: Value): (r: string)
    ensures v.Str? ==> r == v.s
    ensures v.Null? ==> r == "None"
    ensures v.Bool? ==> r == (if v.b then "True" else "False")
    ensures v.Num? ==> |r| > 0 && (r[0] == '-' <==> v.n < 0)
    ensures v.Num? && v.n >= 0 ==> IsDigits(r) && DigitsValue(r) == v.n
    ensures v.Num? && v.n < 0 ==> IsDigits(r[1..]) && DigitsValue(r[1..]) == -v.n
    // no leading zero, as `str` writes integers
    ensures v.Num? && v.n >= 0 && r[0] == '0' ==> v.n == 0
    ensures v.Num? && v.n < 0 ==> |r| > 1 && r[1] != '0'
  {
    match v
    case Null => "None"
    case Bool(b) => if b then "True" else "False"
    case Num(n) => if n < 0 then "-" + Decimal(-n) else Decimal(n)
    case Str(s) => s
    case Arr(_) => "[...]"
    case Obj(_) => "{...}"
  }
}
