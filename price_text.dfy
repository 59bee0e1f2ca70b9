/**
 * Numbers as the scraper and the page see them, and the two text conversions
 * they rely on: a template literal `₹${n}` and `parseFloat(s.replace("₹", ""))`.
 *
 * A JavaScript number is modelled as a whole number or NaN; fractions,
 * infinities and exponent notation are not modelled.
 */
module PriceText {

  /** A JavaScript number restricted to whole values, plus NaN. */
  datatype JsNumber = Int(n: int) | NaN

  /** The rupee sign that prefixes every rendered price. */
  const RupeeSign: char := '₹'

  predicate IsDigit(c: char) {
    '0' <= c <= '9'
  }

  function DigitChar(d: int): (c: char)
    requires 0 <= d < 10
    ensures IsDigit(c) && c as int - '0' as int == d
  {
    (d + '0' as int) as char
  }

  function DigitValue(c: char): (d: nat)
    requires IsDigit(c)
    ensures d < 10
  {
    c as int - '0' as int
  }

  /** Decimal digits of a natural number, most significant first, without leading zeros. */
  function NatToString(n: nat): (s: string)
    ensures |s| >= 1
    ensures forall k :: 0 <= k < |s| ==> IsDigit(s[k])
    ensures n < 10 <==> |s| == 1
    decreases n
  {
    if n < 10 then [DigitChar(n)] else NatToString(n / 10) + [DigitChar(n % 10)]
  }

  /** The text `${n}` produces for a whole number: its digits, with '-' in front when negative. */
  function IntToString(n: int): (s: string)
    ensures s != [] && (s[0] == '-' <==> n < 0)
  {
    if n < 0 then "-" + NatToString(-n) else NatToString(n)
  }

  /** The text `${x}` produces for a number of the model. */
  function NumberToString(x: JsNumber): string {
    match x
    case Int(n) => IntToString(n)
    case NaN => "NaN"
  }

  /** A whole-rupee price rendered as `₹${n}`. */
  function Rupee(n: int): (s: string)
    ensures |s| >= 2 && s[0] == RupeeSign
  {
    [RupeeSign] + IntToString(n)
  }

  /** `s.replace(c, "")` for a one-character pattern: only the first occurrence goes. */
  function RemoveFirst(s: string, c: char): (r: string)
    ensures c in s ==> |r| == |s| - 1
    ensures c !in s ==> r == s
  {
    if s == [] then []
    else if s[0] == c then s[1..]
    else [s[0]] + RemoveFirst(s[1..], c)
  }

  /** The number of leading decimal digits of s. */
  function LeadingDigits(s: string): (k: nat)
    ensures k <= |s|
    ensures forall j :: 0 <= j < k ==> IsDigit(s[j])
    ensures k < |s| ==> !IsDigit(s[k])
  {
    if s == [] || !IsDigit(s[0]) then 0 else 1 + LeadingDigits(s[1..])
  }

  /** The value of a string of decimal digits, read most significant first. */
  function DigitsValue(d: string): nat
    requires forall k :: 0 <= k < |d| ==> IsDigit(d[k])
  {
    if d == [] then 0 else 10 * DigitsValue(d[..|d| - 1]) + DigitValue(d[|d| - 1])
  }

  /**
   * White space that parseFloat skips before the number: tab, line feed,
   * vertical tab, form feed, carriage return, the space separators, the
   * line and paragraph separators and the byte order mark.
   */
  predicate IsSpace(c: char) {
    c == '\t' || c == '\n' || c == '\U{000B}' || c == '\U{000C}' || c == '\r' || c == ' '
    || c == '\U{00A0}' || c == '\U{1680}' || '\U{2000}' <= c <= '\U{200A}'
    || c == '\U{2028}' || c == '\U{2029}' || c == '\U{202F}' || c == '\U{205F}'
    || c == '\U{3000}' || c == '\U{FEFF}'
  }

  /** The whole number written by the leading digits of s, or NaN when s does not start with a digit. */
  function UnsignedPrefix(s: string): JsNumber {
    var k := LeadingDigits(s);
    if k == 0 then NaN else Int(DigitsValue(s[..k]))
  }

  /**
   * parseFloat on whole numbers: skip leading white space, read an optional
   * sign and the longest run of digits after it; anything after the digits is
   * ignored, and no digits at all gives NaN.
   */
  function ParseFloat(s: string): (r: JsNumber)
    ensures (forall k :: 0 <= k < |s| ==> !IsDigit(s[k])) ==> r == NaN
  {
    if s == [] then NaN
    else if IsSpace(s[0]) then ParseFloat(s[1..])
    else if s[0] == '-' then
      match UnsignedPrefix(s[1..])
      case Int(n) => Int(-n)
      case NaN => NaN
    else if s[0] == '+' then UnsignedPrefix(s[1..])
    else UnsignedPrefix(s)
  }

  /** `parseFloat(price.replace("₹", ""))`, the way both the history and the page read a price back. */
  function ParsePrice(price: string): JsNumber {
    ParseFloat(RemoveFirst(price, RupeeSign))
  }

  lemma {:induction false} DigitsValueOfNatToString(n: nat)
    ensures DigitsValue(NatToString(n)) == n
    decreases n
  {
    var s := NatToString(n);
    if n >= 10 {
      DigitsValueOfNatToString(n / 10);
      assert s[..|s| - 1] == NatToString(n / 10);
    } else {
      assert s[..|s| - 1] == [];
    }
  }

  lemma UnsignedPrefixOfNatToString(n: nat)
    ensures UnsignedPrefix(NatToString(n)) == Int(n)
  {
    var s := NatToString(n);
    assert s[..|s|] == s;
    DigitsValueOfNatToString(n);
  }

  lemma {:induction false} LeadingDigitsOfDigits(d: string, rest: string)
    requires forall k :: 0 <= k < |d| ==> IsDigit(d[k])
    requires rest == [] || !IsDigit(rest[0])
    ensures LeadingDigits(d + rest) == |d|
    decreases |d|
  {
    if d == [] {
      assert d + rest == rest;
    } else {
      assert (d + rest)[1..] == d[1..] + rest;
      LeadingDigitsOfDigits(d[1..], rest);
    }
  }

  /** The digits of a natural number followed by text that does not start with a digit read back as the number. */
  lemma UnsignedFollowedBy(a: nat, rest: string)
    requires rest == [] || !IsDigit(rest[0])
    ensures UnsignedPrefix(NatToString(a) + rest) == Int(a)
  {
    var m := NatToString(a);
    LeadingDigitsOfDigits(m, rest);
    assert (m + rest)[..|m|] == m;
    DigitsValueOfNatToString(a);
  }

  lemma AppendAssoc<T>(a: seq<T>, b: seq<T>, c: seq<T>)
    ensures (a + b) + c == a + (b + c)
  {
  }

  /** `parseFloat` of a minus sign followed by u negates what u starts with. */
  lemma ParseMinus(u: string, a: int)
    requires a >= 0 && UnsignedPrefix(u) == Int(a)
    ensures ParseFloat("-" + u) == Int(-a)
  {
    var t := "-" + u;
    assert t[0] == '-' && t[1..] == u;
  }

  lemma ParseNegativeFollowedBy(n: int, rest: string)
    requires n < 0
    requires rest == [] || !IsDigit(rest[0])
    ensures ParseFloat(IntToString(n) + rest) == Int(n)
  {
    var a: nat := -n;
    var u := NatToString(a) + rest;
    UnsignedFollowedBy(a, rest);
    ParseMinus(u, a);
    assert IntToString(n) == "-" + NatToString(a);
    AppendAssoc("-", NatToString(a), rest);
  }

  lemma ParseNonNegativeFollowedBy(n: int, rest: string)
    requires n >= 0
    requires rest == [] || !IsDigit(rest[0])
    ensures ParseFloat(IntToString(n) + rest) == Int(n)
  {
    var t := IntToString(n) + rest;
    UnsignedFollowedBy(n, rest);
    assert t == NatToString(n) + rest;
    assert IsDigit(t[0]);
  }

  /** `parseFloat` of `${n}` followed by text that does not start with a digit reads back n. */
  lemma ParseIntFollowedBy(n: int, rest: string)
    requires rest == [] || !IsDigit(rest[0])
    ensures ParseFloat(IntToString(n) + rest) == Int(n)
  {
    if n < 0 {
      ParseNegativeFollowedBy(n, rest);
    } else {
      ParseNonNegativeFollowedBy(n, rest);
    }
  }

  /** Reading back a rendered price gives the price: `parseFloat("₹n".replace("₹", "")) == n`. */
  lemma ParseRupee(n: int)
    ensures ParsePrice(Rupee(n)) == Int(n)
  {
    var t := IntToString(n);
    assert Rupee(n)[1..] == t;
    assert RemoveFirst(Rupee(n), RupeeSign) == t;
    if n < 0 {
      var m := NatToString(-n);
      assert t[1..] == m;
      UnsignedPrefixOfNatToString(-n);
      assert ParseFloat(t) == Int(n);
    } else {
      assert IsDigit(t[0]);
      UnsignedPrefixOfNatToString(n);
      assert ParseFloat(t) == Int(n);
    }
  }

  /** The sentinels the scraper writes, and the text of a NaN price, all read back as NaN. */
  lemma SentinelsParseToNaN()
    ensures ParsePrice("N/A") == NaN
    ensures ParsePrice("Error") == NaN
    ensures ParsePrice([RupeeSign] + "NaN") == NaN
  {
  }

  /** `s.startsWith(p)`. */
  predicate StartsWith(s: string, p: string) {
    |p| <= |s| && s[..|p|] == p
  }

  /** `s.includes(p)`. */
  predicate Contains(s: string, p: string)
    decreases |s|
  {
    StartsWith(s, p) || (s != [] && Contains(s[1..], p))
  }

  /** Text in front of s cannot create a match when it holds no occurrence of the pattern's first character. */
  lemma {:induction false} ContainsAfterPrefix(pre: string, s: string, p: string)
    requires p != []
    requires p[0] !in pre
    ensures Contains(pre + s, p) <==> Contains(s, p)
    decreases |pre|
  {
    if pre == [] {
      assert pre + s == s;
    } else {
      assert !StartsWith(pre + s, p) by {
        assert (pre + s)[0] == pre[0];
      }
      assert (pre + s)[1..] == pre[1..] + s;
      ContainsAfterPrefix(pre[1..], s, p);
    }
  }

  /** A match inside the prefix is still a match once more text follows. */
  lemma {:induction false} ContainsInPrefix(pre: string, s: string, p: string)
    requires Contains(pre, p)
    ensures Contains(pre + s, p)
    decreases |pre|
  {
    if StartsWith(pre, p) {
      assert (pre + s)[..|p|] == pre[..|p|];
    } else {
      assert (pre + s)[1..] == pre[1..] + s;
      ContainsInPrefix(pre[1..], s, p);
    }
  }

  /** A match in s is still a match once text is put in front of it. */
  lemma {:induction false} ContainsInSuffix(pre: string, s: string, p: string)
    requires Contains(s, p)
    ensures Contains(pre + s, p)
    decreases |pre|
  {
    if pre == [] {
      assert pre + s == s;
    } else {
      assert (pre + s)[1..] == pre[1..] + s;
      ContainsInSuffix(pre[1..], s, p);
    }
  }
}
