/**
 * The two number/text conversions the page parameter goes through: JavaScript's
 * `parseInt` (ECMAScript section 19.2.5) and the decimal rendering of an integer
 * by a template string or `toString()`. Integers are unbounded; `None` stands
 * for NaN.
 */
module JsNumber {
  import opened Common

  /** Value of a digit character in bases up to 36; 36 for anything else. */
  function CharDigit(c: char): nat
  {
    if '0' <= c <= '9' then c as int - '0' as int
    else if 'a' <= c <= 'z' then c as int - 'a' as int + 10
    else if 'A' <= c <= 'Z' then c as int - 'A' as int + 10
    else 36
  }

  predicate IsDigitIn(c: char, base: nat)
  {
    CharDigit(c) < base
  }

  predicate AllDigits(s: string, base: nat)
  {
    forall i :: 0 <= i < |s| ==> IsDigitIn(s[i], base)
  }

  /** Length of the longest prefix of s made of digits of the base. */
  function DigitRun(s: string, base: nat): (n: nat)
    ensures n <= |s|
    ensures AllDigits(s[..n], base)
    ensures n < |s| ==> !IsDigitIn(s[n], base)
  {
    if s == [] || !IsDigitIn(s[0], base) then 0
    else
      var m := DigitRun(s[1..], base);
      assert s[..m + 1] == [s[0]] + s[1..][..m];
      1 + m
  }

  /** The number a digit string denotes, most significant digit first. */
  function DigitsValue(s: string, base: nat): nat
    requires AllDigits(s, base)
  {
    if s == [] then 0
    else DigitsValue(s[..|s| - 1], base) * base + CharDigit(s[|s| - 1])
  }

  /** The white space `parseInt` skips (the ASCII ones, no-break space, BOM, line and paragraph separators). */
  predicate IsSpace(c: char)
  {
    c == ' ' || c == '\t' || c == '\n' || c == '\r' || c as int == 11 || c as int == 12
    || c as int == 0xA0 || c as int == 0xFEFF || c as int == 0x2028 || c as int == 0x2029
  }

  function TrimStart(s: string): (r: string)
    ensures r == [] || !IsSpace(r[0])
  {
    if s != [] && IsSpace(s[0]) then TrimStart(s[1..]) else s
  }

  /** The unsigned part of `parseInt`: optional "0x" prefix (without radix), then the digit run. */
  function ParseUnsigned(u: string, radix10: bool): Option<nat>
  {
    var hex := !radix10 && |u| >= 2 && u[0] == '0' && (u[1] == 'x' || u[1] == 'X');
    var base := if hex then 16 else 10;
    var w := if hex then u[2..] else u;
    var n := DigitRun(w, base);
    if n == 0 then None else Some(DigitsValue(w[..n], base))
  }

  predicate IsNegative(t: string)
  {
    |t| > 0 && t[0] == '-'
  }

  /** The text after an optional leading sign. */
  function Unsigned(t: string): string
  {
    if |t| > 0 && (t[0] == '-' || t[0] == '+') then t[1..] else t
  }

  /**
   * `parseInt(s, 10)` when radix10 holds, `parseInt(s)` otherwise (where a
   * "0x"/"0X" prefix after the sign selects base 16). None is NaN.
   */
  function ParseInt(s: string, radix10: bool): Option<int>
  {
    var t := TrimStart(s);
    match ParseUnsigned(Unsigned(t), radix10)
    case None => None
    case Some(v) => Some(if IsNegative(t) then -(v as int) else v as int)
  }

  function DigitChar(d: nat): (c: char)
    requires d < 10
    ensures '0' <= c <= '9' && CharDigit(c) == d
  {
    ('0' as int + d) as char
  }

  /** Decimal digits of n, without sign or leading zeros. */
  function NatToString(n: nat): (r: string)
    ensures |r| >= 1
    ensures forall i :: 0 <= i < |r| ==> '0' <= r[i] <= '9'
    ensures DigitsValue(r, 10) == n
    decreases n
  {
    if n < 10 then [DigitChar(n)]
    else
      var a := NatToString(n / 10);
      var c := DigitChar(n % 10);
      assert (a + [c])[..|a|] == a;
      a + [c]
  }

  /** `${x}` for a number x produced by `parseInt` (an integer or NaN). */
  function NumberToString(x: Option<int>): string
  {
    match x
    case None => "NaN"
    case Some(i) => if i < 0 then "-" + NatToString(-i) else NatToString(i)
  }

  lemma {:induction false} DigitRunAll(s: string, base: nat)
    requires AllDigits(s, base)
    ensures DigitRun(s, base) == |s|
  {
    if s != [] {
      DigitRunAll(s[1..], base);
    }
  }

  /** A decimal digit string reads back as its own value. */
  lemma ParseDecimalDigits(u: string, radix10: bool)
    requires |u| >= 1
    requires forall i :: 0 <= i < |u| ==> '0' <= u[i] <= '9'
    ensures ParseUnsigned(u, radix10) == Some(DigitsValue(u, 10))
  {
    assert AllDigits(u, 10);
    DigitRunAll(u, 10);
    assert u[..|u|] == u;
    assert !(|u| >= 2 && u[1] == 'x') && !(|u| >= 2 && u[1] == 'X');
  }

  lemma TrimStartNoSpace(s: string)
    requires s != [] && !IsSpace(s[0])
    ensures TrimStart(s) == s
  {
  }

  /** What `parseInt` does with text that starts with no space: sign, then unsigned part. */
  lemma ParseIntNoSpace(s: string, radix10: bool)
    requires s != [] && !IsSpace(s[0])
    ensures ParseInt(s, radix10) == match ParseUnsigned(Unsigned(s), radix10)
                                    case None => None
                                    case Some(v) => Some(if IsNegative(s) then -(v as int) else v as int)
  {
    TrimStartNoSpace(s);
  }

  /** Reading back what was written gives the same integer, with or without a radix. */
  lemma ParseIntRoundTrip(i: int, radix10: bool)
    ensures ParseInt(NumberToString(Some(i)), radix10) == Some(i)
  {
    if i < 0 {
      ParseNegative(-i, radix10);
    } else {
      ParseNatural(i, radix10);
    }
  }

  lemma ParseNatural(n: nat, radix10: bool)
    ensures ParseInt(NatToString(n), radix10) == Some(n)
  {
    var d := NatToString(n);
    ParseDecimalDigits(d, radix10);
    ParseIntNoSpace(d, radix10);
    assert Unsigned(d) == d && !IsNegative(d);
  }

  lemma ParseNegative(n: nat, radix10: bool)
    requires n > 0
    ensures ParseInt("-" + NatToString(n), radix10) == Some(-(n as int))
  {
    ParseDecimalDigits(NatToString(n), radix10);
    ParseMinus(NatToString(n), n, radix10);
  }

  /** A '-' before text whose unsigned reading is v reads as -v. */
  lemma ParseMinus(d: string, v: nat, radix10: bool)
    requires ParseUnsigned(d, radix10) == Some(v)
    ensures ParseInt("-" + d, radix10) == Some(-(v as int))
  {
    var s := "-" + d;
    assert s[0] == '-' && s[1..] == d;
    ParseIntNoSpace(s, radix10);
    assert Unsigned(s) == d && IsNegative(s);
  }

  /** Distinct integers are written differently. */
  lemma NumberToStringInjective(i: int, j: int)
    requires i != j
    ensures NumberToString(Some(i)) != NumberToString(Some(j))
  {
    ParseIntRoundTrip(i, true);
    ParseIntRoundTrip(j, true);
  }
}
