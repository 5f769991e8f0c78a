/**
 Fixed-point text of `Decimal` values: `format(value, "f")` on the way into a
 sidecar and `Decimal(text)` on the way back.
 */
module DecimalText {
  import opened Wrappers

  /** A finite Decimal: sign, coefficient and exponent, as Python keeps it. */
  datatype Decimal = Decimal(negative: bool, coefficient: nat, exponent: int)

  function Pow10(n: nat): (r: nat)
    ensures r >= 1
  {
    if n == 0 then 1 else 10 * Pow10(n - 1)
  }

  /** The number a Decimal denotes. */
  function Value(d: Decimal): real {
    var magnitude :=
      if d.exponent >= 0 then (d.coefficient * Pow10(d.exponent)) as real
      else d.coefficient as real / Pow10(-d.exponent) as real;
    if d.negative then -magnitude else magnitude
  }

  // ---------- digits ----------

  predicate IsDigit(c: char) { '0' <= c <= '9' }

  predicate AllDigits(s: string) { forall i :: 0 <= i < |s| ==> IsDigit(s[i]) }

  function DigitChar(n: nat): (c: char)
    requires n < 10
    ensures IsDigit(c) && c as int - '0' as int == n
  {
    ('0' as int + n) as char
  }

  function Digits(n: nat): (s: string)
    ensures s != [] && AllDigits(s)
  {
    if n < 10 then [DigitChar(n)] else Digits(n / 10) + [DigitChar(n % 10)]
  }

  /** Python's `int(text)` on a run of digits. */
  function NumberOf(s: string): nat
    requires AllDigits(s)
  {
    if s == [] then 0
    else NumberOf(s[..|s| - 1]) * 10 + (s[|s| - 1] as int - '0' as int)
  }

  function Zeros(n: nat): (s: string)
    ensures |s| == n && AllDigits(s)
  {
    seq(n, _ => '0')
  }

  lemma {:induction false} NumberOfDigits(n: nat)
    ensures NumberOf(Digits(n)) == n
  {
    if n >= 10 {
      NumberOfDigits(n / 10);
      assert Digits(n)[..|Digits(n)| - 1] == Digits(n / 10);
    }
  }

  lemma {:induction false} NumberOfConcat(a: string, b: string)
    requires AllDigits(a) && AllDigits(b)
    ensures AllDigits(a + b)
    ensures NumberOf(a + b) == NumberOf(a) * Pow10(|b|) + NumberOf(b)
  {
    if b == [] {
      assert a + b == a;
    } else {
      var b' := b[..|b| - 1];
      NumberOfConcat(a, b');
      assert (a + b)[..|a + b| - 1] == a + b';
      AppendDigit(NumberOf(a), Pow10(|b'|), NumberOf(b'), b[|b| - 1] as int - '0' as int);
    }
  }

  lemma AppendDigit(x: nat, power: nat, y: nat, digit: int)
    ensures (x * power + y) * 10 + digit == x * (10 * power) + (y * 10 + digit)
  {
    assert x * (10 * power) == 10 * (x * power);
  }

  lemma {:induction false} NumberOfZeros(n: nat)
    ensures NumberOf(Zeros(n)) == 0
  {
    if n == 0 {
    } else {
      assert Zeros(n)[..n - 1] == Zeros(n - 1);
      NumberOfZeros(n - 1);
    }
  }

  // ---------- printing ----------

  /** `format(d, "f")`, with no precision given. */
  function Format(d: Decimal): string {
    (if d.negative then "-" else "") + FormatMagnitude(d.coefficient, d.exponent)
  }

  function FormatMagnitude(coefficient: nat, exponent: int): string {
    var ds := Digits(coefficient);
    if coefficient == 0 && exponent > 0 then "0"  // a positive-exponent zero is rescaled first
    else if exponent >= 0 then ds + Zeros(exponent)
    else
      var dot := |ds| + exponent;
      if dot <= 0 then "0" + "." + (Zeros(-dot) + ds)
      else ds[..dot] + "." + ds[dot..]
  }

  // ---------- parsing ----------

  datatype Split = Split(whole: string, fraction: Option<string>)

  function SplitAtDot(s: string): Split {
    if s == [] then Split([], None)
    else if s[0] == '.' then Split([], Some(s[1..]))
    else
      var rest := SplitAtDot(s[1..]);
      rest.(whole := [s[0]] + rest.whole)
  }

  /** Digits around at most one dot, and at least one digit. */
  function FromParts(negative: bool, whole: string, fraction: string): Option<Decimal> {
    var digits := whole + fraction;
    if digits == [] || !AllDigits(digits) then None
    else Some(Decimal(negative, NumberOf(digits), -|fraction|))
  }

  function ParseMagnitude(negative: bool, s: string): Option<Decimal> {
    var parts := SplitAtDot(s);
    FromParts(negative, parts.whole, if parts.fraction.Some? then parts.fraction.value else [])
  }

  /** `Decimal(text)` for the plain fixed-point notation; None is InvalidOperation. */
  function Parse(s: string): Option<Decimal> {
    if s != [] && s[0] == '-' then ParseMagnitude(true, s[1..]) else ParseMagnitude(false, s)
  }

  lemma {:induction false} SplitWithoutDot(a: string)
    requires AllDigits(a)
    ensures SplitAtDot(a) == Split(a, None)
  {
    if a == [] {
    } else {
      assert a == [a[0]] + a[1..];
      SplitWithoutDot(a[1..]);
    }
  }

  lemma {:induction false} SplitWithDot(a: string, b: string)
    requires AllDigits(a)
    ensures SplitAtDot(a + "." + b) == Split(a, Some(b))
  {
    var s := a + "." + b;
    if a == [] {
      assert s[1..] == b;
    } else {
      assert s[0] == a[0];
      assert s[1..] == a[1..] + "." + b;
      SplitWithDot(a[1..], b);
      assert a == [a[0]] + a[1..];
    }
  }

  // ---------- the round trip ----------

  /** What a printed Decimal reads back as: itself, unless its exponent is positive. */
  function Normal(d: Decimal): Decimal {
    if d.exponent > 0 then Decimal(d.negative, d.coefficient * Pow10(d.exponent), 0) else d
  }

  lemma NormalSameValue(d: Decimal)
    ensures Value(Normal(d)) == Value(d)
    ensures Normal(d) == d <==> d.exponent <= 0
  {
    assert Pow10(0) == 1;
  }

  lemma ParseSigned(negative: bool, body: string)
    requires body != [] && body[0] != '-'
    ensures Parse((if negative then "-" else "") + body) == ParseMagnitude(negative, body)
  {
    if negative {
      assert ("-" + body)[1..] == body;
    } else {
      assert "" + body == body;
    }
  }

  /** Printing with "f" and parsing gives back an equal number, and the very same
      digits when the exponent is not positive. */
  lemma FormatParse(d: Decimal)
    ensures Parse(Format(d)) == Some(Normal(d))
    ensures Value(Normal(d)) == Value(d)
  {
    NormalSameValue(d);
    if d.exponent >= 0 {
      FormatParseWhole(d);
    } else {
      FormatParseFraction(d);
    }
  }

  lemma WholeNumber(coefficient: nat, exponent: nat)
    ensures var body := FormatMagnitude(coefficient, exponent);
            body != [] && AllDigits(body) && NumberOf(body) == coefficient * Pow10(exponent)
  {
    var ds := Digits(coefficient);
    if coefficient == 0 && exponent > 0 {
      assert NumberOf("0") == NumberOf("0"[..0]) * 10 + 0;
    } else {
      NumberOfDigits(coefficient);
      NumberOfConcat(ds, Zeros(exponent));
      NumberOfZeros(exponent);
      assert |Zeros(exponent)| == exponent;
    }
  }

  /** A run of digits, with or without a sign, reads as the whole number it spells. */
  lemma ParseDigits(negative: bool, body: string)
    requires body != [] && AllDigits(body)
    ensures Parse((if negative then "-" else "") + body) == Some(Decimal(negative, NumberOf(body), 0))
  {
    SplitWithoutDot(body);
    assert body + [] == body;
    assert IsDigit(body[0]);
    ParseSigned(negative, body);
  }

  lemma FormatParseWhole(d: Decimal)
    requires d.exponent >= 0
    ensures Parse(Format(d)) == Some(Normal(d))
  {
    var n := d.coefficient * Pow10(d.exponent);
    WholeNumber(d.coefficient, d.exponent);
    ParseDigits(d.negative, FormatMagnitude(d.coefficient, d.exponent));
    assert Normal(d) == Decimal(d.negative, n, 0) by {
      assert Pow10(0) == 1;
    }
  }

  /** Zeros before the digits change nothing. */
  lemma PaddedNumber(zeros: nat, n: nat)
    ensures AllDigits(Zeros(zeros) + Digits(n)) && NumberOf(Zeros(zeros) + Digits(n)) == n
  {
    NumberOfDigits(n);
    NumberOfZeros(zeros);
    NumberOfConcat(Zeros(zeros), Digits(n));
  }

  lemma OneMoreZero(n: nat)
    ensures "0" + Zeros(n) == Zeros(n + 1)
  {
  }

  /** Fewer digits than decimals: a zero, the dot, and zeros before the digits. */
  lemma SmallFraction(n: nat, exponent: int) returns (whole: string, fraction: string)
    requires exponent < 0 && |Digits(n)| + exponent <= 0
    ensures FormatMagnitude(n, exponent) == whole + "." + fraction
    ensures whole != [] && AllDigits(whole) && |fraction| == -exponent
    ensures AllDigits(whole + fraction) && NumberOf(whole + fraction) == n
  {
    var pad := -(|Digits(n)| + exponent);
    whole, fraction := "0", Zeros(pad) + Digits(n);
    OneMoreZero(pad);
    assert whole + fraction == ("0" + Zeros(pad)) + Digits(n);
    PaddedNumber(pad + 1, n);
  }

  /** Otherwise the dot stands between the digits. */
  lemma SplitFraction(n: nat, exponent: int) returns (whole: string, fraction: string)
    requires exponent < 0 && |Digits(n)| + exponent > 0
    ensures FormatMagnitude(n, exponent) == whole + "." + fraction
    ensures whole != [] && AllDigits(whole) && |fraction| == -exponent
    ensures AllDigits(whole + fraction) && NumberOf(whole + fraction) == n
  {
    var ds := Digits(n);
    var dot := |ds| + exponent;
    whole, fraction := ds[..dot], ds[dot..];
    assert whole + fraction == ds;
    NumberOfDigits(n);
  }

  lemma FormatParseFraction(d: Decimal)
    requires d.exponent < 0
    ensures Parse(Format(d)) == Some(d)
  {
    var whole, fraction: string;
    if |Digits(d.coefficient)| + d.exponent <= 0 {
      whole, fraction := SmallFraction(d.coefficient, d.exponent);
    } else {
      whole, fraction := SplitFraction(d.coefficient, d.exponent);
    }
    ParseFraction(d.negative, whole, fraction);
  }

  /** Digits around a dot, with or without a sign, read as the number all of them spell. */
  lemma ParseFraction(negative: bool, whole: string, fraction: string)
    requires whole != [] && AllDigits(whole) && AllDigits(whole + fraction)
    ensures Parse((if negative then "-" else "") + (whole + "." + fraction))
            == Some(Decimal(negative, NumberOf(whole + fraction), -|fraction|))
  {
    var body := whole + "." + fraction;
    SplitWithDot(whole, fraction);
    assert body[0] == whole[0] && IsDigit(whole[0]);
    ParseSigned(negative, body);
  }

  // ---------- optional values ----------

  /** `format(x, "f") if x is not None else None`. */
  function FormatOption(d: Option<Decimal>): Option<string> {
    if d.None? then None else Some(Format(d.value))
  }

  /** `_maybe_decimal`: None and "" read as None. The outer None is a parse error. */
  function MaybeDecimal(text: Option<string>): Option<Option<Decimal>> {
    if text.None? || text.value == "" then Some(None)
    else match Parse(text.value)
      case None => None
      case Some(d) => Some(Some(d))
  }

  function NormalOption(d: Option<Decimal>): Option<Decimal> {
    if d.None? then None else Some(Normal(d.value))
  }

  lemma OptionRoundTrip(d: Option<Decimal>)
    ensures MaybeDecimal(FormatOption(d)) == Some(NormalOption(d))
    ensures d.Some? ==> Value(NormalOption(d).value) == Value(d.value)
  {
    if d.Some? {
      FormatParse(d.value);
      assert Parse("") == None;
    }
  }

  // ---------- what the texts and the numbers are ----------

  /** The text is the fixed-point text of the number, and absent exactly when it is. */
  ghost predicate Prints(text: Option<string>, d: Option<Decimal>) {
    (text.None? <==> d.None?) && (text.Some? && d.Some? ==> text.value == Format(d.value))
  }

  /** A Decimal is its coefficient times ten to its exponent, with its sign. */
  lemma ValueMeaning(negative: bool, coefficient: nat, exponent: int)
    ensures Value(Decimal(false, coefficient, 0)) == coefficient as real
    ensures Value(Decimal(negative, coefficient, exponent + 1)) == 10.0 * Value(Decimal(negative, coefficient, exponent))
    ensures Value(Decimal(true, coefficient, exponent)) == -Value(Decimal(false, coefficient, exponent))
  {
    assert Pow10(0) == 1;
    if exponent >= 0 {
      assert coefficient * (10 * Pow10(exponent)) == 10 * (coefficient * Pow10(exponent));
    } else {
      TenTimesLess(coefficient, Pow10(-exponent - 1));
      assert Pow10(-exponent) == 10 * Pow10(-exponent - 1);
    }
  }

  lemma TenTimesLess(c: nat, p: nat)
    requires p >= 1
    ensures c as real / p as real == 10.0 * (c as real / (10 * p) as real)
  {
    var q := c as real / (10 * p) as real;
    assert q * (10 * p) as real == c as real;
    assert (10 * p) as real == 10.0 * p as real;
    assert (10.0 * q) * p as real == c as real;
    assert ((10.0 * q) * p as real) / p as real == 10.0 * q;
  }

  lemma DigitsSpelled()
    ensures Digits(1230) == "1230" && Digits(47) == "47" && Digits(5) == "5" && Digits(0) == "0"
  {
    assert Digits(1) == "1" && Digits(12) == "12" && Digits(123) == "123";
    assert Digits(4) == "4";
  }

  /** Texts in the notation: a plain number, padding with zeros, a positive exponent, zero. */
  lemma Printed()
    ensures Format(Decimal(false, 1230, -2)) == "12.30"
    ensures Format(Decimal(true, 5, -3)) == "-0.005"
    ensures Format(Decimal(false, 47, 2)) == "4700"
    ensures Format(Decimal(false, 0, 3)) == "0"
  {
    DigitsSpelled();
    PlainText();
    PaddedText();
    assert Zeros(2) == "00";
  }

  lemma PlainText()
    ensures Format(Decimal(false, 1230, -2)) == "12.30"
  {
    DigitsSpelled();
    assert "1230"[..2] == "12" && "1230"[2..] == "30";
  }

  lemma PaddedText()
    ensures Format(Decimal(true, 5, -3)) == "-0.005"
  {
    DigitsSpelled();
    assert Zeros(2) == "00";
  }

  /** Absent and empty texts read as no number; letters are a parse error. */
  lemma ReadSpecially()
    ensures MaybeDecimal(None) == Some(None) && MaybeDecimal(Some("")) == Some(None)
    ensures MaybeDecimal(Some("n/a")) == None
  {
    assert SplitAtDot("a") == Split("a", None);
    assert SplitAtDot("/a") == Split("/a", None);
    assert SplitAtDot("n/a") == Split("n/a", None);
    assert !IsDigit(("n/a" + [])[0]);
  }
}
