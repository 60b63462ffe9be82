/**
 * The Ruby coercion `port.to_i` that the port setter relies on, for the
 * values a caller passes as a port: an Integer, a String or nil.
 */
module RubyCoercion {

  /** A Ruby value given as a port. */
  datatype PortValue = IntPort(n: int) | StrPort(s: string) | NilPort

  /** The characters String#to_i skips before the number: space, \t, \n, \v, \f, \r. */
  predicate IsSpace(c: char) {
    c == ' ' || 9 <= c as int <= 13
  }

  predicate IsDigit(c: char) {
    '0' <= c <= '9'
  }

  predicate AllDigits(d: string) {
    forall i :: 0 <= i < |d| ==> IsDigit(d[i])
  }

  /** `s` without its leading white space. */
  function SkipSpace(s: string): string
    decreases |s|
  {
    if s != [] && IsSpace(s[0]) then SkipSpace(s[1..]) else s
  }

  /** The longest prefix of `s` made of decimal digits. */
  function DigitPrefix(s: string): (r: string)
    ensures AllDigits(r)
    decreases |s|
  {
    if s != [] && IsDigit(s[0]) then [s[0]] + DigitPrefix(s[1..]) else []
  }

  /** The number written in decimal by the digit string `d` ("" is 0). */
  function DecimalValue(d: string): nat
    requires AllDigits(d)
    decreases |d|
  {
    if d == [] then 0 else 10 * DecimalValue(d[..|d| - 1]) + (d[|d| - 1] as int - '0' as int)
  }

  /** `u` without the optional base-10 radix prefix "0d" or "0D", which
      String#to_i skips after the sign. */
  function DropDecimalPrefix(u: string): string {
    if |u| >= 2 && u[0] == '0' && (u[1] == 'd' || u[1] == 'D') then u[2..] else u
  }

  /** The first character after the leading white space of `s` is a minus sign. */
  predicate MinusSign(s: string) {
    var t := SkipSpace(s);
    t != [] && t[0] == '-'
  }

  /** String#to_i in base 10: white space, an optional sign, an optional
      "0d" prefix, then the leading digits. Only a minus sign makes the
      result negative, and after one it is never positive. */
  function StringToI(s: string): (r: int)
    ensures r < 0 ==> MinusSign(s)
    ensures MinusSign(s) ==> r <= 0
  {
    var t := SkipSpace(s);
    var unsigned := if t != [] && (t[0] == '-' || t[0] == '+') then t[1..] else t;
    var n := DecimalValue(DigitPrefix(DropDecimalPrefix(unsigned)));
    if t != [] && t[0] == '-' then -(n as int) else n
  }

  /** `value.to_i` for the port values modelled (nil.to_i is 0). */
  function ToI(p: PortValue): int {
    match p
    case IntPort(n) => n
    case StrPort(s) => StringToI(s)
    case NilPort => 0
  }

  /** Some digit of `d` is not '0'. */
  predicate HasNonZeroDigit(d: string) {
    exists i :: 0 <= i < |d| && d[i] != '0'
  }

  /** A digit string denotes a positive number exactly when one of its digits is not 0. */
  lemma {:induction false} DecimalValuePositive(d: string)
    requires AllDigits(d)
    ensures DecimalValue(d) > 0 <==> HasNonZeroDigit(d)
    decreases |d|
  {
    if d != [] {
      var init := d[..|d| - 1];
      DecimalValuePositive(init);
      if HasNonZeroDigit(init) {
        var i :| 0 <= i < |init| && init[i] != '0';
        assert d[i] != '0';
      }
      assert forall i :: 0 <= i < |init| ==> init[i] == d[i];
    }
  }

  /** The string ports that `to_i` makes positive: after leading white space,
      no minus sign, and the digits right after an optional plus sign and an
      optional "0d" prefix are not all zeros. So "1883", " +1883", "0d1883"
      and "1883abc" pass, while "", "abc", "-1883", "0", "000" and "0d" do not. */
  predicate StringAccepted(s: string) {
    var t := SkipSpace(s);
    (t == [] || t[0] != '-') &&
    HasNonZeroDigit(DigitPrefix(DropDecimalPrefix(if t != [] && t[0] == '+' then t[1..] else t)))
  }

  /** String#to_i is positive exactly for the accepted strings. */
  lemma StringPortPositive(s: string)
    ensures StringToI(s) > 0 <==> StringAccepted(s)
  {
    var t := SkipSpace(s);
    if t != [] && t[0] == '-' {
    } else if t != [] && t[0] == '+' {
      DecimalValuePositive(DigitPrefix(DropDecimalPrefix(t[1..])));
    } else {
      DecimalValuePositive(DigitPrefix(DropDecimalPrefix(t)));
    }
  }

  /** The ports whose `to_i` is positive: a positive Integer, or an accepted
      String; never nil. */
  lemma PortPositive(p: PortValue)
    ensures ToI(p) > 0 <==> (p.IntPort? && p.n > 0) || (p.StrPort? && StringAccepted(p.s))
  {
    if p.StrPort? {
      StringPortPositive(p.s);
    }
  }

  /** "0d1883".to_i is 1883: the radix prefix is skipped. */
  lemma DecimalPrefixExample()
    ensures StringToI("0d1883") == 1883
  {
    assert SkipSpace("0d1883") == "0d1883";
    assert DropDecimalPrefix("0d1883") == "1883";
    assert DigitPrefix("1883") == "1883" by {
      assert "1883"[1..] == "883" && "883"[1..] == "83" && "83"[1..] == "3" && "3"[1..] == "";
    }
    assert DecimalValue("1883") == 1883 by {
      assert "1883"[..3] == "188" && "188"[..2] == "18" && "18"[..1] == "1" && "1"[..0] == "";
    }
  }
}
