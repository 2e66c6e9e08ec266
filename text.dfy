/**
 * The string primitives the dashboard relies on: ASCII lower-casing,
 * `String.prototype.includes`, the regular expression `\d{4}`, the global
 * `parseInt` and the decimal rendering of an integer (`Number.prototype.toString`).
 */
module Text {
  import opened Wrappers

  /** `toLowerCase` restricted to the ASCII letters. */
  function LowerChar(c: char): char {
    if 'A' <= c <= 'Z' then (c as int - 'A' as int + 'a' as int) as char else c
  }

  function Lower(s: string): string {
    seq(|s|, i requires 0 <= i < |s| => LowerChar(s[i]))
  }

  /** `s.includes(sub)`: `sub` occurs somewhere in `s` (the empty string occurs everywhere). */
  predicate Contains(s: string, sub: string) {
    exists i | 0 <= i <= |s| - |sub| :: OccursAt(s, sub, i)
  }

  predicate OccursAt(s: string, sub: string, i: int) {
    0 <= i <= |s| - |sub| && s[i..i + |sub|] == sub
  }

  /** `s.startsWith(prefix)`. */
  predicate StartsWith(s: string, prefix: string) {
    |prefix| <= |s| && s[..|prefix|] == prefix
  }

  // ---------------------------------------------------------------------------
  // The regular expression /\d{4}/ (leftmost match)
  // ---------------------------------------------------------------------------

  /** `\d` in an ECMAScript regular expression: the ASCII digits only. */
  predicate IsDigit(c: char) {
    '0' <= c <= '9'
  }

  /** Four consecutive digits start at position `i` of `s`. */
  predicate FourDigitsAt(s: string, i: int) {
    0 <= i && i + 4 <= |s| && IsDigit(s[i]) && IsDigit(s[i + 1]) && IsDigit(s[i + 2]) && IsDigit(s[i + 3])
  }

  /** Where `s.match(/\d{4}/)` matches: the first position holding four digits, if any. */
  function FirstFourDigitsIndex(s: string): (r: Option<nat>)
    ensures r.Some? ==> FourDigitsAt(s, r.value)
    ensures r.Some? ==> forall j :: 0 <= j < r.value ==> !FourDigitsAt(s, j)
    ensures r.None? ==> forall j :: !FourDigitsAt(s, j)
  {
    if |s| < 4 then None
    else if FourDigitsAt(s, 0) then Some(0)
    else
      var rest := FirstFourDigitsIndex(s[1..]);
      assert forall j :: FourDigitsAt(s, j + 1) <==> FourDigitsAt(s[1..], j);
      match rest
      case None =>
        assert forall j :: FourDigitsAt(s, j) ==> j == 0 || FourDigitsAt(s[1..], j - 1);
        None
      case Some(k) =>
        assert forall j :: 0 < j <= k ==> (FourDigitsAt(s, j) <==> FourDigitsAt(s[1..], j - 1));
        Some(k + 1)
  }

  /** `match[0]` of `s.match(/\d{4}/)`, or `None` when there is no match (`null`). */
  function MatchFourDigits(s: string): (r: Option<string>)
    ensures r.Some? ==> |r.value| == 4 && forall k :: 0 <= k < 4 ==> IsDigit(r.value[k])
  {
    match FirstFourDigitsIndex(s)
    case Some(i) => Some(s[i..i + 4])
    case None => None
  }

  // ---------------------------------------------------------------------------
  // The global parseInt(string) with no radix argument
  // ---------------------------------------------------------------------------

  /** The ECMAScript WhiteSpace and LineTerminator code points that `parseInt` skips. */
  predicate IsJsSpace(c: char) {
    c == '\t' || c == '\U{000B}' || c == '\U{000C}' || c == ' ' || c == '\U{00A0}' || c == '\U{FEFF}'
    || c == '\n' || c == '\r' || c == '\U{2028}' || c == '\U{2029}'
    || c == '\U{1680}' || ('\U{2000}' <= c <= '\U{200A}') || c == '\U{202F}' || c == '\U{205F}' || c == '\U{3000}'
  }

  /**
   * The number of white-space characters at the start of `s`, which
   * `parseInt` skips: all of them are white space, and the next is not.
   */
  function LeadingSpace(s: string): (n: nat)
    ensures n <= |s|
    ensures forall k :: 0 <= k < n ==> IsJsSpace(s[k])
    ensures n < |s| ==> !IsJsSpace(s[n])
  {
    if |s| > 0 && IsJsSpace(s[0]) then 1 + LeadingSpace(s[1..]) else 0
  }

  /** The value of `c` as a digit in base `radix` (10 or 16), or -1 when it is not one. */
  function DigitValue(c: char, radix: nat): int {
    var v :=
      if '0' <= c <= '9' then c as int - '0' as int
      else if 'a' <= c <= 'z' then c as int - 'a' as int + 10
      else if 'A' <= c <= 'Z' then c as int - 'A' as int + 10
      else -1;
    if v < radix then v else -1
  }

  /** The length of the longest prefix of `s` made of base-`radix` digits. */
  function DigitRun(s: string, radix: nat): (n: nat)
    ensures n <= |s|
    ensures forall k :: 0 <= k < n ==> DigitValue(s[k], radix) >= 0
    ensures n < |s| ==> DigitValue(s[n], radix) < 0
  {
    if |s| > 0 && DigitValue(s[0], radix) >= 0 then 1 + DigitRun(s[1..], radix) else 0
  }

  /** The number that a string of base-`radix` digits denotes, most significant first. */
  function DigitsValue(digits: string, radix: nat): nat
    requires forall k :: 0 <= k < |digits| ==> DigitValue(digits[k], radix) >= 0
  {
    if digits == [] then 0
    else DigitsValue(digits[..|digits| - 1], radix) * radix + DigitValue(digits[|digits| - 1], radix)
  }

  /**
   * The unsigned part of `parseInt`: base 16 after a `0x`/`0X` prefix, base 10
   * otherwise, then the longest run of digits; `None` when there is no digit.
   */
  function ParseMagnitude(u: string): Option<nat> {
    var hex := |u| >= 2 && u[0] == '0' && (u[1] == 'x' || u[1] == 'X');
    var radix := if hex then 16 else 10;
    var body := if hex then u[2..] else u;
    var n := DigitRun(body, radix);
    if n == 0 then None else Some(DigitsValue(body[..n], radix))
  }

  /**
   * `parseInt(s)`: skip leading white space, take one optional sign, then read
   * the magnitude; `None` stands for `NaN`. `-0` is returned as 0.
   */
  function ParseInt(s: string): Option<int> {
    ParseSigned(s[LeadingSpace(s)..])
  }

  /** One optional sign, then the magnitude. */
  function ParseSigned(t: string): Option<int> {
    var negative := |t| > 0 && t[0] == '-';
    var u := if |t| > 0 && (t[0] == '-' || t[0] == '+') then t[1..] else t;
    match ParseMagnitude(u)
    case None => None
    case Some(m) => Some(Signed(negative, m))
  }

  function Signed(negative: bool, m: nat): int {
    if negative then -(m as int) else m
  }

  /** What `parseInt` receives for a JavaScript `null`: the string "null". */
  const NullText: string := "null"

  // ---------------------------------------------------------------------------
  // Number.prototype.toString() on integers
  // ---------------------------------------------------------------------------

  function DigitChar(d: nat): char
    requires d < 10
  {
    ('0' as int + d) as char
  }

  function NatString(n: nat): (r: string)
    ensures |r| > 0
    ensures forall k :: 0 <= k < |r| ==> IsDigit(r[k])
    ensures r[0] == '0' ==> n == 0
  {
    if n < 10 then [DigitChar(n)] else NatString(n / 10) + [DigitChar(n % 10)]
  }

  /** The decimal rendering of an integer, with a leading '-' when it is negative. */
  function DecimalString(n: int): string {
    if n < 0 then "-" + NatString(-n) else NatString(n)
  }

  lemma {:induction false} NatStringValue(n: nat)
    ensures DigitsValue(NatString(n), 10) == n
  {
    var ds := NatString(n);
    if n >= 10 {
      assert ds[..|ds| - 1] == NatString(n / 10);
      NatStringValue(n / 10);
    }
  }

  /** A run of decimal digits that does not start with `0x` is read whole, in base 10. */
  lemma MagnitudeOfDigits(ds: string)
    requires |ds| > 0 && forall k :: 0 <= k < |ds| ==> IsDigit(ds[k])
    requires ds[0] == '0' ==> |ds| == 1
    ensures forall k :: 0 <= k < |ds| ==> DigitValue(ds[k], 10) >= 0
    ensures ParseMagnitude(ds) == Some(DigitsValue(ds, 10))
  {
    var run := DigitRun(ds, 10);
    assert run == |ds|;
    assert ds[..run] == ds;
  }

  /** A sign and a magnitude that starts with a digit are read as the signed magnitude. */
  lemma ParseIntOfSigned(negative: bool, ds: string, m: nat)
    requires |ds| > 0 && IsDigit(ds[0])
    requires ParseMagnitude(ds) == Some(m)
    ensures ParseInt(if negative then "-" + ds else ds) == Some(Signed(negative, m))
  {
    if negative {
      var s := "-" + ds;
      assert s[0] == '-' && !IsJsSpace(s[0]);
      assert LeadingSpace(s) == 0 && s[0..] == s;
      assert s[1..] == ds;
    } else {
      assert !IsJsSpace(ds[0]);
      assert LeadingSpace(ds) == 0 && ds[0..] == ds;
    }
  }

  /** `parseInt` reads back exactly the integer that `toString` wrote. */
  lemma ParseIntOfDecimalString(n: int)
    ensures ParseInt(DecimalString(n)) == Some(n)
  {
    var m: nat := if n < 0 then -n else n;
    var ds := NatString(m);
    NatStringValue(m);
    MagnitudeOfDigits(ds);
    ParseIntOfSigned(n < 0, ds, m);
  }

  /** White space put in front of `s` adds to its leading white space. */
  lemma {:induction false} LeadingSpaceAppend(w: string, s: string)
    requires forall j :: 0 <= j < |w| ==> IsJsSpace(w[j])
    ensures LeadingSpace(w + s) == |w| + LeadingSpace(s)
  {
    if w != [] {
      assert (w + s)[0] == w[0] && IsJsSpace(w[0]);
      assert (w + s)[1..] == w[1..] + s;
      LeadingSpaceAppend(w[1..], s);
    } else {
      assert w + s == s;
    }
  }

  /** Leading white space, however much of it, is skipped before the sign and the digits. */
  lemma ParseIntSkipsLeadingSpace(w: string, s: string)
    requires forall j :: 0 <= j < |w| ==> IsJsSpace(w[j])
    ensures ParseInt(w + s) == ParseInt(s)
  {
    SkippedAppend(w, s);
  }

  /** What is left after the white space is the same with or without `w` in front. */
  lemma SkippedAppend(w: string, s: string)
    requires forall j :: 0 <= j < |w| ==> IsJsSpace(w[j])
    ensures (w + s)[LeadingSpace(w + s)..] == s[LeadingSpace(s)..]
  {
    LeadingSpaceAppend(w, s);
    DropPrefix(w, s, LeadingSpace(s));
  }

  lemma DropPrefix(w: string, s: string, n: nat)
    requires n <= |s|
    ensures (w + s)[|w| + n..] == s[n..]
  {
  }
}
