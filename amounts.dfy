/** Amounts of money, held as whole cents, and their text form.
    `Format` is Java's `Double.toString` and `Parse` is
    `Double.parseDouble`, both restricted to values with at most two
    decimal places. */
module Amounts {
  import opened Wrappers

  predicate IsDigit(c: char)
  {
    '0' <= c <= '9'
  }

  predicate AllDigits(s: string)
  {
    forall i :: 0 <= i < |s| ==> IsDigit(s[i])
  }

  function DigitValue(c: char): nat
    requires IsDigit(c)
  {
    c as int - '0' as int
  }

  function DigitChar(d: nat): (c: char)
    requires d < 10
    ensures IsDigit(c) && DigitValue(c) == d
  {
    (d + '0' as int) as char
  }

  /** The decimal numeral of `n`, without leading zeros. */
  function Numeral(n: nat): (s: string)
    ensures |s| >= 1 && AllDigits(s)
    decreases n
  {
    if n < 10 then [DigitChar(n)] else Numeral(n / 10) + [DigitChar(n % 10)]
  }

  /** The number a string of decimal digits denotes ("" denotes 0). */
  function NumeralValue(s: string): nat
    requires AllDigits(s)
  {
    if |s| == 0 then 0 else 10 * NumeralValue(s[..|s| - 1]) + DigitValue(s[|s| - 1])
  }

  lemma {:induction false} NumeralRoundTrip(n: nat)
    ensures NumeralValue(Numeral(n)) == n
    decreases n
  {
    if n >= 10 {
      NumeralRoundTrip(n / 10);
      var s := Numeral(n);
      assert s[..|s| - 1] == Numeral(n / 10);
    }
  }

  /** The cents of an amount as `Double.toString` prints them: one digit
      when the second is zero ("12.5", "12.0"), two otherwise ("12.05"). */
  function Fraction(k: nat): (s: string)
    requires k < 100
    ensures 1 <= |s| <= 2 && AllDigits(s)
  {
    if k % 10 == 0 then [DigitChar(k / 10)] else [DigitChar(k / 10), DigitChar(k % 10)]
  }

  /** The value of the digits after the decimal point, in cents. */
  function FractionValue(s: string): nat
    requires |s| <= 2 && AllDigits(s)
  {
    if |s| == 0 then 0
    else if |s| == 1 then 10 * DigitValue(s[0])
    else 10 * DigitValue(s[0]) + DigitValue(s[1])
  }

  /** A non-negative amount as `Double.toString` prints it: the whole
      units, '.', and the cents. Digits and one '.', first and last a digit. */
  function Unsigned(m: nat): (s: string)
    ensures |s| >= 3 && IsDigit(s[0]) && IsDigit(s[|s| - 1])
    ensures forall i :: 0 <= i < |s| ==> IsDigit(s[i]) || s[i] == '.'
  {
    Numeral(m / 100) + "." + Fraction(m % 100)
  }

  /** `Double.toString(cents / 100.0)`. The text is never empty, uses only
      digits, '-' and '.', starts with a digit or '-' and ends with a digit. */
  function Format(cents: int): (s: string)
    ensures |s| >= 3
    ensures forall i :: 0 <= i < |s| ==> IsDigit(s[i]) || s[i] == '-' || s[i] == '.'
    ensures IsDigit(s[0]) || s[0] == '-'
    ensures IsDigit(s[|s| - 1])
  {
    if cents < 0 then "-" + Unsigned(-cents) else Unsigned(cents)
  }

  /** `String.trim`: drops every character at or below ' ' from both ends. */
  function Trim(s: string): string
  {
    TrimEnd(TrimStart(s))
  }

  function TrimStart(s: string): string
  {
    if |s| > 0 && s[0] <= ' ' then TrimStart(s[1..]) else s
  }

  function TrimEnd(s: string): string
  {
    if |s| > 0 && s[|s| - 1] <= ' ' then TrimEnd(s[..|s| - 1]) else s
  }

  /** Position of the first `c` in `s`, or `|s|` when there is none. */
  function IndexOf(s: string, c: char): (k: nat)
    ensures k <= |s|
    ensures c !in s[..k]
    ensures k < |s| ==> s[k] == c
  {
    if |s| == 0 then 0
    else if s[0] == c then 0
    else
      var k := 1 + IndexOf(s[1..], c);
      assert s[..k] == [s[0]] + s[1..][..k - 1];
      k
  }

  /** `Double.parseDouble`, to cents: surrounding blanks are ignored, then an
      optional sign, digits, and an optional '.' followed by digits; there
      must be at least one digit. Anything else, and any value with more than
      two decimal places, is a failure. A blank text never parses, and only
      a text that starts with '-' gives a negative amount. */
  function Parse(text: string): (r: Option<int>)
    ensures Trim(text) == "" ==> r.None?
    ensures r.Some? && r.value < 0 ==> Trim(text)[0] == '-'
  {
    var t := Trim(text);
    var negative := |t| > 0 && t[0] == '-';
    var u := if |t| > 0 && (t[0] == '-' || t[0] == '+') then t[1..] else t;
    match ParseUnsigned(u)
    case None => None
    case Some(m) =>
      var cents := if negative then -(m as int) else m as int;
      Some(cents)
  }

  /** Digits with an optional '.' among them, to cents. */
  function ParseUnsigned(u: string): Option<nat>
  {
    var k := IndexOf(u, '.');
    var whole := u[..k];
    var fraction := if k < |u| then u[k + 1..] else "";
    if |whole| + |fraction| == 0 || |fraction| > 2 || !AllDigits(whole) || !AllDigits(fraction) then None
    else Some(100 * NumeralValue(whole) + FractionValue(fraction))
  }

  lemma TrimPrinted(s: string)
    requires |s| > 0 && s[0] > ' ' && s[|s| - 1] > ' '
    ensures Trim(s) == s
  {
  }

  lemma {:induction false} ParseUnsignedFormat(m: nat)
    ensures ParseUnsigned(Unsigned(m)) == Some(m)
  {
    var d, f := Numeral(m / 100), Fraction(m % 100);
    var u := d + "." + f;
    var k := IndexOf(u, '.');
    assert u[|d|] == '.';
    assert k == |d|;
    assert u[..k] == d;
    assert u[k + 1..] == f;
    NumeralRoundTrip(m / 100);
  }

  /** `Parse` of an already trimmed text: an optional '-' and then an
      unsigned number that starts with a digit. */
  lemma ParseSigned(s: string, negative: bool, u: string)
    requires Trim(s) == s
    requires |u| > 0 && IsDigit(u[0])
    requires s == if negative then "-" + u else u
    requires ParseUnsigned(u).Some?
    ensures Parse(s) == Some(if negative then -(ParseUnsigned(u).value as int) else ParseUnsigned(u).value as int)
  {
    if negative {
      assert s[1..] == u;
    }
  }

  /** Every amount written by `Format` is read back unchanged by `Parse`. */
  lemma {:induction false} ParseFormat(cents: int)
    ensures Parse(Format(cents)) == Some(cents)
  {
    var s := Format(cents);
    TrimPrinted(s);
    var m := if cents < 0 then -cents else cents;
    ParseUnsignedFormat(m);
    ParseSigned(s, cents < 0, Unsigned(m));
  }
}
