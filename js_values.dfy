/** The few JavaScript value rules the screens rely on: truthiness of
    optional strings and `parseInt` on decimal text. */
module JsValues {
  import opened Wrappers

  /** JavaScript truthiness of a possibly-undefined string: `undefined`
      and `''` are falsy, every other string is truthy. */
  predicate Truthy(s: Option<string>) {
    s.Some? && s.value != ""
  }

  /** Reading a property of an object of strings: `undefined` when absent. */
  function Field(m: map<string, string>, key: string): (v: Option<string>)
    ensures v.Some? <==> key in m
    ensures v.Some? ==> v.value == m[key]
  {
    if key in m then Some(m[key]) else None
  }

  /** `s || fallback` for a possibly-undefined string. */
  function OrElse(s: Option<string>, fallback: string): string {
    if Truthy(s) then s.value else fallback
  }

  predicate IsDigit(c: char) { '0' <= c <= '9' }

  /** The white space and line terminators of ECMAScript (sections 12.2
      and 12.3 of ECMA-262): tab, vertical tab, form feed, the byte order
      mark, the space separators, and the four line terminators. */
  predicate IsSpace(c: char) {
    c == '\t' || c == '\U{000B}' || c == '\U{000C}' || c == ' ' || c == '\U{00A0}' || c == '\U{FEFF}'
    || c == '\U{1680}' || '\U{2000}' <= c <= '\U{200A}' || c == '\U{202F}' || c == '\U{205F}' || c == '\U{3000}'
    || c == '\n' || c == '\r' || c == '\U{2028}' || c == '\U{2029}'
  }

  /** The leading white space that `parseInt` skips. */
  function TrimStart(s: string): (r: string)
    ensures |r| <= |s| && r == s[|s| - |r|..]
    ensures forall i :: 0 <= i < |s| - |r| ==> IsSpace(s[i])
    ensures r != [] ==> !IsSpace(r[0])
  {
    if s != [] && IsSpace(s[0]) then TrimStart(s[1..]) else s
  }

  /** The longest prefix of `s` made of decimal digits. */
  function DigitPrefix(s: string): (r: string)
    ensures |r| <= |s| && r == s[..|r|]
    ensures forall i :: 0 <= i < |r| ==> IsDigit(r[i])
    ensures |r| < |s| ==> !IsDigit(s[|r|])
  {
    if s != [] && IsDigit(s[0]) then [s[0]] + DigitPrefix(s[1..]) else []
  }

  /** The value of a string of decimal digits, most significant first. */
  function DigitsValue(d: string): (n: nat)
    requires forall i :: 0 <= i < |d| ==> IsDigit(d[i])
  {
    if d == [] then 0
    else
      assert IsDigit(d[|d| - 1]);
      10 * DigitsValue(d[..|d| - 1]) + (d[|d| - 1] as int - '0' as int)
  }

  /** JavaScript `parseInt(s)` for decimal text: leading white space is
      skipped, one sign is accepted, then the longest run of digits is
      read; no digit at all gives `NaN` (here `None`). */
  function ParseInt(s: string): Option<int> {
    var t := TrimStart(s);
    var negative := t != [] && t[0] == '-';
    var u := if t != [] && (t[0] == '-' || t[0] == '+') then t[1..] else t;
    var d := DigitPrefix(u);
    if d == [] then None
    else
      var v: int := DigitsValue(d);
      Some(if negative then -v else v)
  }

  /** `parseInt(v)` for a possibly-undefined value: `parseInt(undefined)` is `NaN`. */
  function ParseIntOf(v: Option<string>): Option<int> {
    if v.None? then None else ParseInt(v.value)
  }

  function DigitChar(k: nat): (c: char)
    requires k < 10
    ensures IsDigit(c) && c as int - '0' as int == k
  {
    ('0' as int + k) as char
  }

  /** The decimal rendering of a natural number, without leading zeros. */
  function NatToString(n: nat): (s: string)
    ensures s != [] && forall i :: 0 <= i < |s| ==> IsDigit(s[i])
  {
    if n < 10 then [DigitChar(n)] else NatToString(n / 10) + [DigitChar(n % 10)]
  }

  /** The digit run of digits followed by a non-digit is exactly those digits. */
  lemma {:induction false} DigitPrefixOfDigits(s: string, rest: string)
    requires forall i :: 0 <= i < |s| ==> IsDigit(s[i])
    requires rest == [] || !IsDigit(rest[0])
    ensures DigitPrefix(s + rest) == s
  {
    if s != [] {
      assert (s + rest)[1..] == s[1..] + rest;
      DigitPrefixOfDigits(s[1..], rest);
    }
  }

  lemma {:induction false} DigitsValueOfNatToString(n: nat)
    ensures DigitsValue(NatToString(n)) == n
  {
    var s := NatToString(n);
    if n >= 10 {
      DigitsValueOfNatToString(n / 10);
      assert s[..|s| - 1] == NatToString(n / 10);
    }
  }

  /** `parseInt` ignores whatever follows the digits: `parseInt('22 years')` is 22. */
  lemma ParseIntIgnoresSuffix(n: nat, rest: string)
    requires rest == [] || !IsDigit(rest[0])
    ensures ParseInt(NatToString(n) + rest) == Some(n)
  {
    var s := NatToString(n);
    var t := s + rest;
    assert t[0] == s[0];
    assert TrimStart(t) == t by {
      assert !IsSpace(t[0]);
    }
    DigitPrefixOfDigits(s, rest);
    DigitsValueOfNatToString(n);
    assert DigitPrefix(t) == s;
  }

  /** `parseInt` reads back what a decimal rendering wrote. */
  lemma ParseIntRoundTrip(n: nat)
    ensures ParseInt(NatToString(n)) == Some(n)
  {
    ParseIntIgnoresSuffix(n, []);
    assert NatToString(n) + [] == NatToString(n);
  }

  /** White space beyond ASCII is skipped too: `parseInt('\u00A05')` is 5. */
  lemma ParseIntSkipsNoBreakSpace(n: nat)
    ensures ParseInt(['\U{00A0}'] + NatToString(n)) == Some(n)
  {
    var s := NatToString(n);
    var t := ['\U{00A0}'] + s;
    assert t[1..] == s;
    assert TrimStart(t) == TrimStart(s);
    ParseIntRoundTrip(n);
  }

  /** Text with no digit after the skipped white space and sign parses to `NaN`. */
  lemma ParseIntNaN(s: string)
    requires var t := TrimStart(s);
             var u := if t != [] && (t[0] == '-' || t[0] == '+') then t[1..] else t;
             u == [] || !IsDigit(u[0])
    ensures ParseInt(s) == None
  {
  }
}
