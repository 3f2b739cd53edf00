/**
 * The values the browser-side code works with: JSON payloads as JSON.parse
 * returns them, JavaScript numbers (restricted to integers, plus NaN),
 * undefined (as `None`), truthiness and `||`, and the few string helpers the
 * views call (toLowerCase, includes, padStart, String(n), Number(s)).
 */
module Js {

  datatype Option<+T> = None | Some(value: T)

  /** A JSON value; numbers are restricted to integers. */
  datatype Json =
    | JNull
    | JBool(b: bool)
    | JNum(n: int)
    | JStr(s: string)
    | JArr(items: seq<Json>)
    | JObj(fields: map<string, Json>)

  /** JavaScript truthiness of a JSON value (arrays and objects are truthy, even empty ones). */
  predicate Truthy(v: Json) {
    match v
    case JNull => false
    case JBool(b) => b
    case JNum(n) => n != 0
    case JStr(s) => s != ""
    case JArr(_) => true
    case JObj(_) => true
  }

  /** `v.key` on a non-null value: the field of an object, otherwise undefined (`None`). */
  function Field(v: Json, key: string): (r: Option<Json>)
    ensures r.Some? <==> v.JObj? && key in v.fields
  {
    if v.JObj? && key in v.fields then Some(v.fields[key]) else None
  }

  /** `v.key` read as a string: undefined unless the field holds a JSON string. */
  function StrField(v: Json, key: string): (r: Option<string>)
    ensures r.Some? <==> Field(v, key).Some? && Field(v, key).value.JStr?
  {
    match Field(v, key)
    case Some(JStr(s)) => Some(s)
    case _ => None
  }

  /** `v.key` read as a number: undefined unless the field holds a JSON number. */
  function NumField(v: Json, key: string): (r: Option<int>)
    ensures r.Some? <==> Field(v, key).Some? && Field(v, key).value.JNum?
  {
    match Field(v, key)
    case Some(JNum(n)) => Some(n)
    case _ => None
  }

  /** Truthiness of an optional string (undefined and "" are falsy). */
  predicate TruthyStr(s: Option<string>) {
    s.Some? && s.value != ""
  }

  /** Truthiness of an optional integer (undefined and 0 are falsy). */
  predicate TruthyInt(n: Option<int>) {
    n.Some? && n.value != 0
  }

  /** `a || b` on optional strings. */
  function OrStr(a: Option<string>, b: Option<string>): (r: Option<string>)
    ensures TruthyStr(a) ==> r == a
    ensures !TruthyStr(a) ==> r == b
  {
    if TruthyStr(a) then a else b
  }

  /** `a || b` on optional integers. */
  function OrInt(a: Option<int>, b: Option<int>): (r: Option<int>)
    ensures TruthyInt(a) ==> r == a
    ensures !TruthyInt(a) ==> r == b
  {
    if TruthyInt(a) then a else b
  }

  /** `a || dflt` where the default is a plain string. */
  function StrOr(a: Option<string>, dflt: string): (r: string)
    ensures TruthyStr(a) ==> r == a.value
    ensures !TruthyStr(a) ==> r == dflt
  {
    if TruthyStr(a) then a.value else dflt
  }

  /** `a || dflt` where the default is a plain integer. */
  function IntOr(a: Option<int>, dflt: int): (r: int)
    ensures TruthyInt(a) ==> r == a.value
    ensures !TruthyInt(a) ==> r == dflt
  {
    if TruthyInt(a) then a.value else dflt
  }

  /**
   * How an awaited API call of the client ended: it resolved, or it threw with
   * `err.response?.data?.detail` (absent when the server sent none).
   */
  datatype ApiReply = Succeeded | Failed(detail: Option<string>)

  /** The message a view shows for a failed call: the server's detail, or its own fallback. */
  function FailureText(reply: ApiReply, fallback: string): (r: string)
    requires reply.Failed?
    ensures TruthyStr(reply.detail) ==> r == reply.detail.value
    ensures !TruthyStr(reply.detail) ==> r == fallback
  {
    StrOr(reply.detail, fallback)
  }

  /** A JavaScript number as the views handle it: an integer, or NaN. */
  datatype Number = NaN | Int(i: int)

  /** `x` where `x` may be undefined: undefined takes part in arithmetic as NaN. */
  function NumberOf(x: Option<int>): (r: Number)
    ensures r.Int? <==> x.Some?
    ensures x.Some? ==> r.i == x.value
  {
    if x.Some? then Int(x.value) else NaN
  }

  /** `a + k`; NaN absorbs. */
  function Plus(a: Number, k: int): (r: Number)
    ensures r.Int? <==> a.Int?
    ensures a.Int? ==> r.i == a.i + k
  {
    if a.Int? then Int(a.i + k) else NaN
  }

  /** `a < b`; every comparison with NaN is false. */
  predicate Less(a: Number, b: Number) {
    a.Int? && b.Int? && a.i < b.i
  }

  /** Truthiness of a number: NaN and 0 are falsy. */
  predicate TruthyNumber(a: Number) {
    a.Int? && a.i != 0
  }

  /** A number as JSON.stringify writes it: NaN becomes null. */
  function NumberJson(a: Number): (r: Json)
    ensures a.Int? ==> r == JNum(a.i)
    ensures a.NaN? ==> r == JNull
  {
    if a.Int? then JNum(a.i) else JNull
  }

  predicate IsDigit(c: char) {
    '0' <= c <= '9'
  }

  predicate AllDigits(s: string) {
    forall k :: 0 <= k < |s| ==> IsDigit(s[k])
  }

  /** The value of a string of decimal digits. */
  function DigitsValue(s: string): (r: nat)
    requires AllDigits(s)
  {
    if s == [] then 0 else DigitsValue(s[..|s| - 1]) * 10 + (s[|s| - 1] as int - '0' as int)
  }

  /**
   * `Number(s)` for the strings this model meets: the empty string is 0, a string
   * of decimal digits is its value, a minus sign before such digits negates it,
   * and anything else is NaN (blanks, a plus sign, decimal points, exponents and
   * hexadecimal are read as NaN here).
   */
  function ToNumber(s: string): (r: Number)
    ensures s == "" ==> r == Int(0)
    ensures AllDigits(s) ==> r == Int(DigitsValue(s))
    ensures r.Int? <==> AllDigits(s) || (|s| >= 2 && s[0] == '-' && AllDigits(s[1..]))
  {
    if AllDigits(s) then Int(DigitsValue(s))
    else if |s| >= 2 && s[0] == '-' && AllDigits(s[1..]) then Int(0 - DigitsValue(s[1..]) as int)
    else NaN
  }

  /** A hyphen anywhere after the first character, as in every UUID, makes this model's `Number` give NaN. */
  lemma InnerHyphenIsNaN(s: string)
    requires exists k :: 1 <= k < |s| && s[k] == '-'
    ensures ToNumber(s) == NaN
  {
    var k :| 1 <= k < |s| && s[k] == '-';
    assert !IsDigit(s[k]);
    assert s[1..][k - 1] == '-';
  }

  /** The decimal digit for 0..9. */
  function DigitChar(d: nat): (c: char)
    requires d < 10
    ensures IsDigit(c)
  {
    ('0' as int + d) as char
  }

  /** `String(n)` for a natural number: its decimal digits, without leading zeros. */
  function NatText(n: nat): (r: string)
    ensures |r| >= 1
    ensures AllDigits(r)
    ensures n < 10 ==> |r| == 1
    ensures n >= 10 ==> |r| >= 2
  {
    if n < 10 then [DigitChar(n)] else NatText(n / 10) + [DigitChar(n % 10)]
  }

  /** `String(n)` for an integer: a minus sign before the digits of a negative one. */
  function IntText(n: int): (r: string)
    ensures |r| >= 1
    ensures n >= 0 ==> r == NatText(n)
  {
    if n >= 0 then NatText(n) else "-" + NatText(-n)
  }

  /** `String(a)` for a number: its decimal text, or "NaN". */
  function NumberText(a: Number): (r: string)
    ensures a.NaN? ==> r == "NaN"
    ensures a.Int? ==> r == IntText(a.i)
  {
    if a.Int? then IntText(a.i) else "NaN"
  }

  /** Reading back the digits `String` writes gives the number. */
  lemma {:induction false} DigitsOfNatText(n: nat)
    ensures DigitsValue(NatText(n)) == n
  {
    if n >= 10 {
      var t := NatText(n);
      assert t[..|t| - 1] == NatText(n / 10);
      DigitsOfNatText(n / 10);
    }
  }

  /** `Number(String(a))` is `a` again, NaN included. */
  lemma NumberTextRoundTrip(a: Number)
    ensures ToNumber(NumberText(a)) == a
  {
    if a.Int? {
      if a.i >= 0 {
        DigitsOfNatText(a.i);
      } else {
        var t := NumberText(a);
        assert t[1..] == NatText(-a.i);
        assert !AllDigits(t) by { assert !IsDigit(t[0]); }
        DigitsOfNatText(-a.i);
      }
    } else {
      assert !IsDigit(NumberText(a)[0]);
    }
  }

  /** `String(a)`, with the fact that `Number` reads it back. */
  function TextOf(a: Number): (r: string)
    ensures r == NumberText(a)
    ensures ToNumber(r) == a
  {
    NumberTextRoundTrip(a);
    NumberText(a)
  }

  /** `String(n).padStart(2, '0')`. */
  function PadTwo(n: nat): (r: string)
    ensures n < 100 ==> |r| == 2
    ensures AllDigits(r)
    ensures n < 10 ==> r == ['0', DigitChar(n)]
    ensures n >= 10 ==> r == NatText(n)
  {
    var t := NatText(n);
    if |t| >= 2 then t else ['0'] + t
  }

  /** Lower-casing of one character, on the ASCII letters. */
  function LowerChar(c: char): char {
    if 'A' <= c <= 'Z' then (c as int + 32) as char else c
  }

  /** `s.toLowerCase()` on the ASCII letters. */
  function Lower(s: string): (r: string)
    ensures |r| == |s|
    ensures forall k :: 0 <= k < |s| ==> r[k] == LowerChar(s[k])
  {
    if s == [] then [] else [LowerChar(s[0])] + Lower(s[1..])
  }

  /** `s.includes(sub)`: `sub` occurs in `s` at some position. */
  predicate Includes(s: string, sub: string)
    decreases |s|
  {
    (|sub| <= |s| && s[..|sub|] == sub) || (|s| > 0 && Includes(s[1..], sub))
  }

  /** `sub` occurs in `s` starting at offset `i`. */
  predicate OccursAt(s: string, sub: string, i: int) {
    0 <= i <= |s| - |sub| && s[i..i + |sub|] == sub
  }

  /** `includes` finds `sub` exactly when it occurs at some offset. */
  lemma {:induction false} IncludesAt(s: string, sub: string)
    ensures Includes(s, sub) <==> exists i :: OccursAt(s, sub, i)
    decreases |s|
  {
    if |sub| <= |s| && s[..|sub|] == sub {
      assert OccursAt(s, sub, 0);
    }
    if |s| > 0 {
      IncludesAt(s[1..], sub);
      if Includes(s[1..], sub) {
        var i :| OccursAt(s[1..], sub, i);
        assert s[i + 1..i + 1 + |sub|] == s[1..][i..i + |sub|];
        assert OccursAt(s, sub, i + 1);
      }
      if exists i :: OccursAt(s, sub, i) {
        var i :| OccursAt(s, sub, i);
        if i > 0 {
          assert s[1..][i - 1..i - 1 + |sub|] == s[i..i + |sub|];
          assert OccursAt(s[1..], sub, i - 1);
        }
      }
    }
  }

  /** The empty string is included in every string. */
  lemma EmptyIncluded(s: string)
    ensures Includes(s, "")
  {
    assert s[..0] == "";
  }
}
