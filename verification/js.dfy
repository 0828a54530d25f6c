/** The part of JavaScript's value model the catalog client relies on:
    JSON-like values, truthiness (ToBoolean), String(v), `parseInt` with
    no radix, `split` on a one-character separator, `substring` and
    ASCII `toLowerCase`. Numbers are integers; the decimal rendering of an
    integer is what `Number.prototype.toString` and template literals give. */
module Js {

  datatype Option<T> = None | Some(value: T)

  /** A JSON-like JavaScript value. */
  datatype JsValue =
    | Undefined
    | Null
    | Bool(b: bool)
    | Num(n: int)
    | Str(s: string)
    | Arr(items: seq<JsValue>)
    | Obj(fields: map<string, JsValue>)

  predicate Nullish(v: JsValue) {
    v.Undefined? || v.Null?
  }

  /** ToBoolean: the falsy values are undefined, null, false, 0 and "". */
  predicate Truthy(v: JsValue) {
    match v
    case Undefined => false
    case Null => false
    case Bool(b) => b
    case Num(n) => n != 0
    case Str(s) => s != ""
    case Arr(_) => true
    case Obj(_) => true
  }

  /** Property access `v.key`: a missing key, or a non-object, gives undefined. */
  function Get(v: JsValue, key: string): JsValue {
    if v.Obj? && key in v.fields then v.fields[key] else Undefined
  }

  // ---------------------------------------------------------------------
  // Numbers as text

  predicate IsDecimalDigit(c: char) {
    '0' <= c <= '9'
  }

  function DigitChar(d: nat): (c: char)
    requires d < 10
    ensures IsDecimalDigit(c)
  {
    ('0' as int + d) as char
  }

  /** The decimal digits of m, most significant first, with no leading zero. */
  function Digits(m: nat): (r: string)
    ensures |r| >= 1
    ensures forall i :: 0 <= i < |r| ==> IsDecimalDigit(r[i])
    ensures |r| > 1 ==> r[0] != '0'
    decreases m
  {
    if m < 10 then [DigitChar(m)] else Digits(m / 10) + [DigitChar(m % 10)]
  }

  /** Number.prototype.toString() of an integer. */
  function IntToString(n: int): (r: string)
    ensures |r| >= 1
  {
    if n < 0 then "-" + Digits(-n) else Digits(n)
  }

  // ---------------------------------------------------------------------
  // String(v)

  /** String(v): what a template literal `${v}` and `v.toString()` produce. */
  function JsString(v: JsValue): string
    decreases v
  {
    match v
    case Undefined => "undefined"
    case Null => "null"
    case Bool(b) => if b then "true" else "false"
    case Num(n) => IntToString(n)
    case Str(s) => s
    case Arr(items) => JoinElements(items)
    case Obj(_) => "[object Object]"
  }

  /** Array.prototype.join(","), where undefined and null elements print as "". */
  function JoinElements(items: seq<JsValue>): string
    decreases items
  {
    if |items| == 0 then ""
    else
      var first := if Nullish(items[0]) then "" else JsString(items[0]);
      if |items| == 1 then first else first + "," + JoinElements(items[1..])
  }

  /** The method call `v.toString()`: it throws (None) on undefined and null. */
  function CallToString(v: JsValue): Option<string> {
    if Nullish(v) then None else Some(JsString(v))
  }

  // ---------------------------------------------------------------------
  // parseInt(s) with no radix argument

  /** StrWhiteSpaceChar: the white space and line terminators parseInt skips. */
  predicate IsWhiteSpace(c: char) {
    '\t' <= c <= '\r' || c == ' ' || c == '\U{A0}' || c == '\U{1680}'
    || '\U{2000}' <= c <= '\U{200A}' || c == '\U{2028}' || c == '\U{2029}'
    || c == '\U{202F}' || c == '\U{205F}' || c == '\U{3000}' || c == '\U{FEFF}'
  }

  function TrimStart(s: string): (r: string)
    ensures |r| <= |s| && r == s[|s| - |r|..]
    ensures r == [] || !IsWhiteSpace(r[0])
  {
    if |s| > 0 && IsWhiteSpace(s[0]) then TrimStart(s[1..]) else s
  }

  /** The value of c as a digit in base 36; 36 for any other character. */
  function DigitValue(c: char): (d: nat)
    ensures d <= 36
    ensures d < 10 <==> IsDecimalDigit(c)
  {
    if '0' <= c <= '9' then c as int - '0' as int
    else if 'a' <= c <= 'z' then c as int - 'a' as int + 10
    else if 'A' <= c <= 'Z' then c as int - 'A' as int + 10
    else 36
  }

  /** The longest prefix of s made of digits of the given radix. */
  function LeadingDigits(s: string, radix: nat): (r: string)
    ensures |r| <= |s| && r == s[..|r|]
    ensures forall i :: 0 <= i < |r| ==> DigitValue(r[i]) < radix
  {
    if |s| > 0 && DigitValue(s[0]) < radix then [s[0]] + LeadingDigits(s[1..], radix) else []
  }

  /** The number a string of radix digits denotes. */
  function DigitsValue(z: string, radix: nat): nat {
    if |z| == 0 then 0
    else DigitsValue(z[..|z| - 1], radix) * radix + (DigitValue(z[|z| - 1]) % 36)
  }

  /** The unsigned part of parseInt: hexadecimal after a "0x"/"0X" prefix,
      decimal otherwise, up to the first non-digit; None when no digit. */
  function ParseMagnitude(u: string): Option<nat> {
    var hex := |u| >= 2 && u[0] == '0' && (u[1] == 'x' || u[1] == 'X');
    var radix := if hex then 16 else 10;
    var z := LeadingDigits(if hex then u[2..] else u, radix);
    if z == [] then None else Some(DigitsValue(z, radix))
  }

  /** The sign in front of a magnitude: None stays NaN. */
  function ApplySign(negative: bool, magnitude: Option<nat>): Option<int> {
    match magnitude
    case None => None
    case Some(m) => Some(if negative then -(m as int) else m)
  }

  /** parseInt(s): skip leading white space, take an optional sign, then read
      the magnitude; no digit at all gives NaN (None). */
  function ParseInt(s: string): Option<int> {
    var t := TrimStart(s);
    var signed := |t| > 0 && (t[0] == '-' || t[0] == '+');
    ApplySign(signed && t[0] == '-', ParseMagnitude(if signed then t[1..] else t))
  }

  lemma {:induction false} LeadingDigitsOfDecimal(d: string, rest: string)
    requires forall i :: 0 <= i < |d| ==> IsDecimalDigit(d[i])
    requires rest == [] || !IsDecimalDigit(rest[0])
    ensures LeadingDigits(d + rest, 10) == d
  {
    if |d| > 0 {
      assert (d + rest)[1..] == d[1..] + rest;
      LeadingDigitsOfDecimal(d[1..], rest);
    } else {
      assert d + rest == rest;
    }
  }

  lemma {:induction false} DigitsValueOfDigits(m: nat)
    ensures DigitsValue(Digits(m), 10) == m
    decreases m
  {
    var r := Digits(m);
    if m >= 10 {
      var q, d := m / 10, m % 10;
      assert r == Digits(q) + [DigitChar(d)];
      assert r[..|r| - 1] == Digits(q);
      assert DigitValue(r[|r| - 1]) == d;
      DigitsValueOfDigits(q);
      assert m == q * 10 + d;
    } else {
      assert DigitValue(r[0]) == m;
    }
  }

  lemma MagnitudeOfDigits(m: nat, rest: string)
    requires rest == [] || !IsDecimalDigit(rest[0])
    requires m == 0 ==> rest == [] || (rest[0] != 'x' && rest[0] != 'X')
    ensures ParseMagnitude(Digits(m) + rest) == Some(m)
  {
    var d := Digits(m);
    var u := d + rest;
    assert !(|u| >= 2 && u[0] == '0' && (u[1] == 'x' || u[1] == 'X')) by {
      if |d| > 1 {
        assert u[0] == d[0];
      } else if |u| >= 2 {
        assert u[1] == rest[0];
      }
    }
    LeadingDigitsOfDecimal(d, rest);
    DigitsValueOfDigits(m);
  }

  lemma NoWhiteSpaceStart(s: string)
    requires |s| > 0 && (s[0] == '-' || IsDecimalDigit(s[0]))
    ensures TrimStart(s) == s
  {
    assert !IsWhiteSpace(s[0]);
  }

  /** parseInt of "-" followed by text whose magnitude reads as m is -m. */
  lemma ParseIntOfMinus(u: string, m: nat)
    requires ParseMagnitude(u) == Some(m)
    ensures ParseInt("-" + u) == Some(-(m as int))
  {
    var s := "-" + u;
    assert s[1..] == u;
    NoWhiteSpaceStart(s);
    SignedParse(s);
  }

  /** parseInt of text that starts with its sign. */
  lemma SignedParse(s: string)
    requires |s| > 0 && (s[0] == '-' || s[0] == '+') && TrimStart(s) == s
    ensures ParseInt(s) == ApplySign(s[0] == '-', ParseMagnitude(s[1..]))
  {
  }

  lemma ParseIntOfUnsigned(u: string, m: nat)
    requires |u| > 0 && IsDecimalDigit(u[0])
    requires ParseMagnitude(u) == Some(m)
    ensures ParseInt(u) == Some(m)
  {
    NoWhiteSpaceStart(u);
  }

  /** parseInt reads back the integer a number renders as, and ignores
      whatever non-digit text follows it. */
  lemma ParseIntOfNegative(m: nat, rest: string)
    requires m > 0
    requires rest == [] || !IsDecimalDigit(rest[0])
    ensures ParseInt(IntToString(-(m as int)) + rest) == Some(-(m as int))
  {
    MagnitudeOfDigits(m, rest);
    ParseIntOfMinus(Digits(m) + rest, m);
    assert IntToString(-(m as int)) == "-" + Digits(m);
    Associative("-", Digits(m), rest);
  }

  lemma ParseIntOfNatural(m: nat, rest: string)
    requires rest == [] || !IsDecimalDigit(rest[0])
    requires m == 0 ==> rest == [] || (rest[0] != 'x' && rest[0] != 'X')
    ensures ParseInt(IntToString(m) + rest) == Some(m)
  {
    var u := Digits(m) + rest;
    assert u[0] == Digits(m)[0];
    MagnitudeOfDigits(m, rest);
    ParseIntOfUnsigned(u, m);
  }

  lemma Associative<T>(a: seq<T>, b: seq<T>, c: seq<T>)
    ensures a + b + c == a + (b + c)
  {
  }

  lemma ParseIntOfIntToString(n: int, rest: string)
    requires rest == [] || !IsDecimalDigit(rest[0])
    requires n == 0 ==> rest == [] || (rest[0] != 'x' && rest[0] != 'X')
    ensures ParseInt(IntToString(n) + rest) == Some(n)
  {
    if n < 0 {
      ParseIntOfNegative(-n, rest);
    } else {
      ParseIntOfNatural(n, rest);
    }
  }

  // ---------------------------------------------------------------------
  // Strings

  function Clamp(x: int, lo: int, hi: int): (r: int)
    requires lo <= hi
    ensures lo <= r <= hi
    ensures lo <= x <= hi ==> r == x
  {
    if x < lo then lo else if x > hi then hi else x
  }

  /** s.substring(start, end): both bounds clamped to [0, |s|], swapped if reversed. */
  function Substring(s: string, start: int, end: int): (r: string)
    ensures var a, b := Clamp(start, 0, |s|), Clamp(end, 0, |s|);
            |r| == (if a <= b then b - a else a - b)
  {
    var a, b := Clamp(start, 0, |s|), Clamp(end, 0, |s|);
    if a <= b then s[a..b] else s[b..a]
  }

  /** The position of the first c in s, or |s| when there is none. */
  function IndexOfChar(s: string, c: char): (i: nat)
    ensures i <= |s|
    ensures i < |s| ==> s[i] == c
    ensures forall k :: 0 <= k < i ==> s[k] != c
  {
    if |s| == 0 then 0 else if s[0] == c then 0 else 1 + IndexOfChar(s[1..], c)
  }

  /** s.split(c) for a one-character separator c. */
  function Split(s: string, c: char): (parts: seq<string>)
    ensures |parts| >= 1
    decreases |s|
  {
    var i := IndexOfChar(s, c);
    if i == |s| then [s] else [s[..i]] + Split(s[i + 1..], c)
  }

  lemma SplitWithout(s: string, c: char)
    requires c !in s
    ensures Split(s, c) == [s]
  {
  }

  lemma SplitAfter(a: string, c: char, b: string)
    requires c !in a
    ensures Split(a + [c] + b, c) == [a] + Split(b, c)
  {
    var s := a + [c] + b;
    assert s[|a|] == c;
    assert IndexOfChar(s, c) == |a|;
    assert s[..|a|] == a;
    assert s[|a| + 1..] == b;
  }

  /** a is a, not necessarily contiguous, subsequence of b. */
  predicate IsSubsequence<T(==)>(a: seq<T>, b: seq<T>)
    decreases |b|
  {
    a == [] ||
    (b != [] && ((a[0] == b[0] && IsSubsequence(a[1..], b[1..])) || IsSubsequence(a, b[1..])))
  }

  /** Appending x to b keeps a a subsequence, with or without x appended to a too. */
  lemma {:induction false} SubsequenceSnoc<T>(a: seq<T>, b: seq<T>, x: T, keep: bool)
    requires IsSubsequence(a, b)
    ensures IsSubsequence(if keep then a + [x] else a, b + [x])
    decreases |b|
  {
    var a' := if keep then a + [x] else a;
    if a' != [] {
      if b == [] {
        assert a == [] && a' == [x];
        assert IsSubsequence(a'[1..], (b + [x])[1..]);
      } else if a == [] {
        SubsequenceSnoc(a, b[1..], x, keep);
        assert (b + [x])[1..] == b[1..] + [x];
      } else if a[0] == b[0] && IsSubsequence(a[1..], b[1..]) {
        SubsequenceSnoc(a[1..], b[1..], x, keep);
        assert a'[0] == (b + [x])[0];
        assert a'[1..] == if keep then a[1..] + [x] else a[1..];
        assert (b + [x])[1..] == b[1..] + [x];
      } else {
        SubsequenceSnoc(a, b[1..], x, keep);
        assert (b + [x])[1..] == b[1..] + [x];
      }
    }
  }

  function LowerChar(c: char): char {
    if 'A' <= c <= 'Z' then (c as int - 'A' as int + 'a' as int) as char else c
  }

  /** s.toLowerCase() on the ASCII letters. */
  function ToLower(s: string): (r: string)
    ensures |r| == |s|
  {
    seq(|s|, i requires 0 <= i < |s| => LowerChar(s[i]))
  }
}
