/**
 * JavaScript values as the TypeScript sources see an `unknown`: what JSON
 * parsing or a library call can hand over. Objects are their own
 * properties only; every property name the model asks about ("text",
 * "content", "messages", "records", "segment", "score", "document",
 * "name", "answer") is absent from the standard prototypes, so `in` and
 * property reads agree with the real lookup on them.
 */
module Js {

  datatype JsValue =
    | Undefined
    | Null
    | Bool(b: bool)
      /** A number, carried as the text `String(n)` renders for it. */
    | Number(text: string)
    | Str(s: string)
    | Array(items: seq<JsValue>)
    | Object(props: map<string, JsValue>)

  /** `typeof v === 'object' && v !== null`: plain objects and arrays. */
  predicate IsObjectType(v: JsValue) {
    v.Array? || v.Object?
  }

  /** Truthiness as `!v` tests it; a number is falsy exactly for 0, -0 and NaN,
      whose String() renderings are "0" and "NaN". */
  predicate Truthy(v: JsValue) {
    match v
    case Undefined => false
    case Null => false
    case Bool(b) => b
    case Number(t) => t != "0" && t != "NaN"
    case Str(s) => s != ""
    case Array(_) => true
    case Object(_) => true
  }

  /** `key in v` for an object-typed `v` (arrays carry no named properties). */
  predicate Has(v: JsValue, key: string)
    requires IsObjectType(v)
  {
    v.Object? && key in v.props
  }

  /** `v[key]` on a value that is neither null nor undefined. */
  function Get(v: JsValue, key: string): (r: JsValue)
    ensures v.Object? && key in v.props ==> r == v.props[key]
    ensures !(v.Object? && key in v.props) ==> r == Undefined
  {
    if v.Object? && key in v.props then v.props[key] else Undefined
  }

  /** `a ?? b`. */
  function Coalesce(a: JsValue, b: JsValue): (r: JsValue)
    ensures (a.Undefined? || a.Null?) ==> r == b
    ensures !(a.Undefined? || a.Null?) ==> r == a
  {
    if a.Undefined? || a.Null? then b else a
  }

  /** The characters `\s` matches and `String.prototype.trim` removes:
      ECMAScript WhiteSpace and LineTerminator. */
  predicate IsWs(c: char) {
    var u := c as int;
    || 0x09 <= u <= 0x0D                    // tab, line feed, vertical tab, form feed, carriage return
    || u == 0x20 || u == 0xA0 || u == 0x1680
    || 0x2000 <= u <= 0x200A                // the fixed-width spaces
    || u == 0x2028 || u == 0x2029           // line and paragraph separators
    || u == 0x202F || u == 0x205F || u == 0x3000
    || u == 0xFEFF                          // byte order mark
  }

  predicate AllWs(s: string) {
    forall k :: 0 <= k < |s| ==> IsWs(s[k])
  }

  predicate IsDigit(c: char) {
    '0' <= c <= '9'
  }

  predicate AllDigits(s: string) {
    forall k :: 0 <= k < |s| ==> IsDigit(s[k])
  }

  function DigitChar(d: nat): (c: char)
    requires d < 10
    ensures IsDigit(c)
  {
    ('0' as int + d) as char
  }

  function DigitValue(c: char): (d: nat)
    requires IsDigit(c)
    ensures d < 10 && DigitChar(d) == c
  {
    c as int - '0' as int
  }

  /** The decimal rendering of a natural number, as template literals and
      `String()` print it (no sign, no leading zero). */
  function Decimal(n: nat): (s: string)
    decreases n
  {
    if n < 10 then [DigitChar(n)] else Decimal(n / 10) + [DigitChar(n % 10)]
  }

  /** The number a string of decimal digits denotes. */
  function DigitsValue(s: string): nat
    requires AllDigits(s)
  {
    if s == [] then 0 else DigitsValue(s[..|s| - 1]) * 10 + DigitValue(s[|s| - 1])
  }

  /** Decimal renders a non-empty digit string without a leading zero that
      reads back as the number it was given. */
  lemma {:induction false} DecimalReadsBack(n: nat)
    ensures |Decimal(n)| > 0 && AllDigits(Decimal(n))
    ensures Decimal(n)[0] == '0' ==> n == 0
    ensures DigitsValue(Decimal(n)) == n
  {
    if n >= 10 {
      DecimalReadsBack(n / 10);
      var s := Decimal(n);
      assert s[..|s| - 1] == Decimal(n / 10);
    }
  }

  /** `String(v)`, the conversion a template literal or `+ ''` applies. */
  function ToText(v: JsValue): string {
    match v
    case Undefined => "undefined"
    case Null => "null"
    case Bool(b) => if b then "true" else "false"
    case Number(t) => t
    case Str(s) => s
    case Array(items) => JoinItems(items)
    case Object(_) => "[object Object]"
  }

  /** `Array.prototype.join(',')`: null and undefined elements print as ''. */
  function JoinItems(items: seq<JsValue>): string
    decreases items
  {
    if items == [] then ""
    else
      var head := if items[0].Undefined? || items[0].Null? then "" else ToText(items[0]);
      if |items| == 1 then head else head + "," + JoinItems(items[1..])
  }

  /** `strings.join(sep)`. */
  function Join(strings: seq<string>, sep: string): string {
    if strings == [] then ""
    else if |strings| == 1 then strings[0]
    else strings[0] + sep + Join(strings[1..], sep)
  }

  function TrimStart(s: string): (r: string)
    ensures |r| <= |s| && r == s[|s| - |r|..]
    ensures r == [] || !IsWs(r[0])
    ensures AllWs(s[..|s| - |r|])
  {
    if |s| > 0 && IsWs(s[0]) then TrimStart(s[1..]) else s
  }

  function TrimEnd(s: string): (r: string)
    ensures |r| <= |s| && r == s[..|r|]
    ensures r == [] || !IsWs(r[|r| - 1])
    ensures AllWs(s[|r|..])
  {
    if |s| > 0 && IsWs(s[|s| - 1]) then TrimEnd(s[..|s| - 1]) else s
  }

  /** `String.prototype.trim`. */
  function Trim(s: string): string {
    TrimEnd(TrimStart(s))
  }

  /** Trailing whitespace is only ever taken from the part after the last
      non-whitespace character. */
  lemma {:induction false} TrimEndAfter(p: string, q: string)
    requires |p| > 0 && !IsWs(p[|p| - 1])
    ensures TrimEnd(p + q) == p + TrimEnd(q)
    decreases |q|
  {
    if |q| > 0 && IsWs(q[|q| - 1]) {
      assert (p + q)[..|p + q| - 1] == p + q[..|q| - 1];
      TrimEndAfter(p, q[..|q| - 1]);
    } else if |q| == 0 {
      assert p + q == p;
    }
  }
}
