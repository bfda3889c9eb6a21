/**
 * Values and string operations of the browser runtime that the admin panel
 * relies on: optional values, JavaScript values with their truthiness and
 * loose comparison against the empty string, the whitespace set used by
 * `String.prototype.trim` and the regular-expression class `\s`, ASCII
 * lower-casing, decimal text for numbers and `parseInt(text, 10)`, and
 * URL query parameters.
 */
module Common {

  datatype Option<T> = None | Some(value: T)

  datatype Result<T, E> = Ok(value: T) | Err(error: E)

  /** A JavaScript value as far as filter records and request bodies use one (numbers are integers here). */
  datatype JsValue =
    | JsUndefined
    | JsNull
    | JsBool(b: bool)
    | JsNumber(n: int)
    | JsString(s: string)
    | JsArray(items: seq<JsValue>)
    | JsObject

  /** A record such as a filter object: a missing key reads as `undefined`. */
  type Record = map<string, JsValue>

  function Field(record: Record, key: string): (v: JsValue)
    ensures key !in record ==> v == JsUndefined
  {
    if key in record then record[key] else JsUndefined
  }

  /** `!!v` */
  predicate Truthy(v: JsValue) {
    match v
    case JsUndefined => false
    case JsNull => false
    case JsBool(b) => b
    case JsNumber(n) => n != 0
    case JsString(s) => s != ""
    case JsArray(_) => true
    case JsObject => true
  }

  /** `v == null` (undefined or null) */
  predicate IsNullish(v: JsValue) {
    v.JsUndefined? || v.JsNull?
  }

  /** Whether `Array.prototype.join` renders `v` as the empty text. */
  predicate JoinsToEmpty(v: JsValue)
    decreases v
  {
    match v
    case JsUndefined => true
    case JsNull => true
    case JsString(s) => s == ""
    case JsArray(items) => |items| == 0 || (|items| == 1 && JoinsToEmpty(items[0]))
    case _ => false
  }

  /** `v == ''` under JavaScript's loose equality: booleans and numbers compare as numbers, arrays by their joined text. */
  predicate LooselyEqualsEmptyString(v: JsValue) {
    match v
    case JsUndefined => false
    case JsNull => false
    case JsBool(b) => !b
    case JsNumber(n) => n == 0
    case JsString(s) => s == ""
    case JsArray(_) => JoinsToEmpty(v)
    case JsObject => false
  }

  /** A value of type `string | undefined` seen as a JavaScript value. */
  function OptionalString(o: Option<string>): (v: JsValue)
    ensures Truthy(v) <==> TruthyString(o)
  {
    match o
    case None => JsUndefined
    case Some(s) => JsString(s)
  }

  /** `!!s` for a value of type `string | undefined`. */
  predicate TruthyString(o: Option<string>) {
    o.Some? && o.value != ""
  }

  /** `a || b` for two values of type `string | undefined`. */
  function OrElse(a: Option<string>, b: Option<string>): (r: Option<string>)
    ensures TruthyString(a) ==> r == a
    ensures !TruthyString(a) ==> r == b
  {
    if TruthyString(a) then a else b
  }

  /** `o || fallback` for a value of type `string | undefined`. */
  function TruthyOr(o: Option<string>, fallback: string): (r: string)
    ensures TruthyString(o) ==> r == o.value
    ensures !TruthyString(o) ==> r == fallback
  {
    if TruthyString(o) then o.value else fallback
  }

  /** `o ?? fallback` for a value that may be `undefined`. */
  function NullishOr<T>(o: Option<T>, fallback: T): (r: T)
    ensures o.Some? ==> r == o.value
    ensures o.None? ==> r == fallback
  {
    if o.Some? then o.value else fallback
  }

  /** Template-string rendering of a `string | undefined`. */
  function TemplateText(o: Option<string>): (r: string)
    ensures o.Some? ==> r == o.value
    ensures o.None? ==> r == "undefined"
  {
    if o.Some? then o.value else "undefined"
  }

  // ---------------------------------------------------------------- whitespace

  /** ECMAScript WhiteSpace and LineTerminator: what `trim` removes and what `\s` matches. */
  predicate IsJsWhitespace(c: char) {
    c == '\t' || c == '\n' || c == '\U{000B}' || c == '\U{000C}' || c == '\r' || c == ' '
    || c == '\U{00A0}' || c == '\U{1680}' || ('\U{2000}' <= c <= '\U{200A}')
    || c == '\U{2028}' || c == '\U{2029}' || c == '\U{202F}' || c == '\U{205F}'
    || c == '\U{3000}' || c == '\U{FEFF}'
  }

  /** The characters a regular-expression `.` does not match. */
  predicate IsLineTerminator(c: char) {
    c == '\n' || c == '\r' || c == '\U{2028}' || c == '\U{2029}'
  }

  /** `/\s/.test(s)` */
  predicate HasWhitespace(s: string) {
    exists i :: 0 <= i < |s| && IsJsWhitespace(s[i])
  }

  function TrimStart(s: string): (r: string)
    ensures |r| <= |s| && r == s[|s| - |r|..]
    ensures |r| > 0 ==> !IsJsWhitespace(r[0])
    ensures forall i :: 0 <= i < |s| - |r| ==> IsJsWhitespace(s[i])
  {
    if |s| > 0 && IsJsWhitespace(s[0]) then
      var r := TrimStart(s[1..]);
      assert s[1..][|s| - 1 - |r|..] == s[|s| - |r|..];
      assert forall i :: 1 <= i < |s| - |r| ==> s[i] == s[1..][i - 1];
      r
    else s
  }

  function TrimEnd(s: string): (r: string)
    ensures |r| <= |s| && r == s[..|r|]
    ensures |r| > 0 ==> !IsJsWhitespace(r[|r| - 1])
    ensures forall i :: |r| <= i < |s| ==> IsJsWhitespace(s[i])
  {
    if |s| > 0 && IsJsWhitespace(s[|s| - 1]) then
      var r := TrimEnd(s[..|s| - 1]);
      assert s[..|s| - 1][..|r|] == s[..|r|];
      assert forall i :: |r| <= i < |s| - 1 ==> s[i] == s[..|s| - 1][i];
      r
    else s
  }

  /** `s.trim()` */
  function Trim(s: string): string {
    TrimEnd(TrimStart(s))
  }

  /** `s.trim() !== ''` exactly when `s` has a character that is not whitespace. */
  lemma TrimNonEmptyIff(s: string)
    ensures Trim(s) != "" <==> exists i :: 0 <= i < |s| && !IsJsWhitespace(s[i])
  {
    var t := TrimStart(s);
    if Trim(s) != "" {
      var k := |s| - |t|;
      assert t[0] == s[k];
      assert !IsJsWhitespace(s[k]);
    } else {
      assert |t| == 0;
    }
  }

  // ---------------------------------------------------------------- case and substrings

  /** `toLowerCase` on one character (ASCII letters only). */
  function LowerChar(c: char): (r: char)
    ensures 'A' <= c <= 'Z' ==> r as int == c as int + 32
    ensures !('A' <= c <= 'Z') ==> r == c
  {
    if 'A' <= c <= 'Z' then (c as int + 32) as char else c
  }

  /** `s.toLowerCase()` (ASCII letters only). */
  function ToLower(s: string): (r: string)
    ensures |r| == |s|
    ensures forall i :: 0 <= i < |s| ==> r[i] == LowerChar(s[i])
  {
    seq(|s|, i requires 0 <= i < |s| => LowerChar(s[i]))
  }

  lemma ToLowerIdempotent(s: string)
    ensures ToLower(ToLower(s)) == ToLower(s)
  {
  }

  /** `s.includes(sub)` */
  predicate Contains(s: string, sub: string)
    decreases |s|
  {
    sub <= s || (|s| > 0 && Contains(s[1..], sub))
  }

  /** A text lacking one of the characters of `sub` does not contain it. */
  lemma {:induction false} NotContainsMissingChar(s: string, sub: string, j: nat)
    requires j < |sub| && forall k :: 0 <= k < |s| ==> s[k] != sub[j]
    ensures !Contains(s, sub)
    decreases |s|
  {
    assert |sub| <= |s| ==> s[j] != sub[j];
    if |s| > 0 {
      NotContainsMissingChar(s[1..], sub, j);
    }
  }

  lemma {:induction false} ContainsAt(s: string, sub: string, k: nat)
    requires k + |sub| <= |s| && s[k..k + |sub|] == sub
    ensures Contains(s, sub)
    decreases k
  {
    if k > 0 {
      assert s[1..][k - 1..k - 1 + |sub|] == s[k..k + |sub|];
      ContainsAt(s[1..], sub, k - 1);
    } else {
      assert sub == s[..|sub|];
    }
  }

  // ---------------------------------------------------------------- numbers as text

  predicate IsDigit(c: char) {
    '0' <= c <= '9'
  }

  predicate AllDigits(s: string) {
    forall i :: 0 <= i < |s| ==> IsDigit(s[i])
  }

  function DigitChar(d: nat): (c: char)
    requires d < 10
    ensures IsDigit(c) && c as int - '0' as int == d
  {
    (('0' as int) + d) as char
  }

  /** `n.toString()` for a non-negative integer. */
  function NatToString(n: nat): (r: string)
    ensures |r| > 0 && AllDigits(r)
    decreases n
  {
    if n < 10 then [DigitChar(n)] else NatToString(n / 10) + [DigitChar(n % 10)]
  }

  /** `n.toString()` */
  function IntToString(n: int): (r: string)
    ensures |r| > 0
    ensures n >= 0 ==> AllDigits(r)
    ensures n < 0 ==> r[0] == '-' && AllDigits(r[1..])
  {
    if n < 0 then "-" + NatToString(-n) else NatToString(n)
  }

  /** The value of a run of decimal digits. */
  function DigitsValue(s: string): nat
    requires AllDigits(s)
  {
    if |s| == 0 then 0 else DigitsValue(s[..|s| - 1]) * 10 + (s[|s| - 1] as int - '0' as int)
  }

  lemma {:induction false} DigitsValueOfNatToString(n: nat)
    ensures DigitsValue(NatToString(n)) == n
    decreases n
  {
    if n >= 10 {
      var s := NatToString(n);
      assert s[..|s| - 1] == NatToString(n / 10);
      DigitsValueOfNatToString(n / 10);
    }
  }

  /** The longest prefix of `s` made of decimal digits. */
  function LeadingDigits(s: string): (r: string)
    ensures r <= s && AllDigits(r)
    ensures |r| < |s| ==> !IsDigit(s[|r|])
  {
    if |s| > 0 && IsDigit(s[0]) then [s[0]] + LeadingDigits(s[1..]) else []
  }

  lemma {:induction false} LeadingDigitsOfDigits(s: string)
    requires AllDigits(s)
    ensures LeadingDigits(s) == s
  {
    if |s| > 0 {
      LeadingDigitsOfDigits(s[1..]);
    }
  }

  /** `parseInt(text, 10)`: `None` stands for `NaN`. */
  function ParseInt(text: string): Option<int> {
    var t := TrimStart(text);
    var negative := |t| > 0 && t[0] == '-';
    var unsigned := if |t| > 0 && (t[0] == '-' || t[0] == '+') then t[1..] else t;
    var digits := LeadingDigits(unsigned);
    if digits == [] then None
    else if negative then Some(-(DigitsValue(digits) as int))
    else Some(DigitsValue(digits))
  }

  /** `parseInt(String(n), 10) === n` */
  lemma ParseIntOfIntToString(n: int)
    ensures ParseInt(IntToString(n)) == Some(n)
  {
    var m: nat := if n < 0 then -n else n;
    var digits := NatToString(m);
    DigitsValueOfNatToString(m);
    if n < 0 {
      var text := IntToString(n);
      assert text[1..] == digits;
      ParseIntOfMinusHead(text);
    } else {
      ParseIntOfDigits(digits);
    }
  }

  /** `parseInt` of a run of digits is its value. */
  lemma ParseIntOfDigits(digits: string)
    requires |digits| > 0 && AllDigits(digits)
    ensures ParseInt(digits) == Some(DigitsValue(digits))
  {
    LeadingDigitsOfDigits(digits);
    assert IsDigit(digits[0]);
    assert !IsJsWhitespace(digits[0]);
    var t := TrimStart(digits);
    assert t == digits;
    assert !(t[0] == '-' || t[0] == '+');
    assert LeadingDigits(t) == digits;
  }

  /** `parseInt` of a minus sign followed by digits. */
  lemma ParseIntOfMinusHead(t: string)
    requires |t| > 1 && t[0] == '-' && AllDigits(t[1..])
    ensures ParseInt(t) == Some(-(DigitsValue(t[1..]) as int))
  {
    assert !IsJsWhitespace(t[0]);
    assert TrimStart(t) == t;
    LeadingDigitsOfDigits(t[1..]);
  }

  /** `s.padStart(2, '0')` */
  function PadStart2(s: string): (r: string)
    ensures |s| >= 2 ==> r == s
    ensures |s| < 2 ==> |r| == 2 && r[2 - |s|..] == s && forall i :: 0 <= i < 2 - |s| ==> r[i] == '0'
  {
    if |s| >= 2 then s else if |s| == 1 then "0" + s else "00"
  }

  // ---------------------------------------------------------------- requests

  datatype Verb = Get | Post | Put | Delete

  /** One `URLSearchParams.append(key, value)` entry. */
  datatype Param = Param(key: string, value: string)

  type Query = seq<Param>

  predicate HasKey(q: Query, key: string) {
    exists i :: 0 <= i < |q| && q[i].key == key
  }

  /** The value of the first entry with `key` (`URLSearchParams.get`). */
  function Lookup(q: Query, key: string): (r: Option<string>)
    ensures r.Some? <==> HasKey(q, key)
    ensures r.Some? ==> exists i :: 0 <= i < |q| && q[i] == Param(key, r.value)
  {
    if |q| == 0 then None
    else if q[0].key == key then Some(q[0].value)
    else
      var r := Lookup(q[1..], key);
      assert HasKey(q[1..], key) ==> HasKey(q, key) by {
        if HasKey(q[1..], key) {
          var i :| 0 <= i < |q[1..]| && q[1..][i].key == key;
          assert q[i + 1].key == key;
        }
      }
      assert HasKey(q, key) ==> HasKey(q[1..], key) by {
        if HasKey(q, key) {
          var i :| 0 <= i < |q| && q[i].key == key;
          assert q[1..][i - 1].key == key;
        }
      }
      if r.Some? then
        var i :| 0 <= i < |q[1..]| && q[1..][i] == Param(key, r.value);
        assert q[i + 1] == Param(key, r.value);
        r
      else r
  }

  /** Looking up in a concatenation finds the first part's entry first. */
  lemma {:induction false} LookupAppend(a: Query, b: Query, key: string)
    ensures Lookup(a + b, key) == if HasKey(a, key) then Lookup(a, key) else Lookup(b, key)
  {
    if |a| > 0 {
      assert (a + b)[0] == a[0];
      assert (a + b)[1..] == a[1..] + b;
      LookupAppend(a[1..], b, key);
    } else {
      assert a + b == b;
    }
  }

  /** A call through the shared HTTP client: verb, path under the API prefix, query. */
  datatype HttpCall = HttpCall(verb: Verb, path: string, query: Query)

  /** `window.location`, as far as the panel reads and assigns `href`. */
  class BrowserLocation {
    var href: string

    constructor (href: string)
      ensures this.href == href
    {
      this.href := href;
    }
  }
}
