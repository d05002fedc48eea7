/** Python text: `str.strip`, and reading and writing `int` and `Decimal` values.

    `Decimal` is kept as Python keeps it, a sign, a coefficient and an exponent, because
    two equal numbers can have different texts ("10" and "1E+1") and the approval code
    compares texts. */
module PyText {
  import opened Options

  // ------------------------------------------------------------------ whitespace

  /** The characters `str.strip()` removes. */
  predicate IsSpace(c: char) {
    var n := c as int;
    || 0x09 <= n <= 0x0d || 0x1c <= n <= 0x20 || n == 0x85 || n == 0xa0 || n == 0x1680
    || 0x2000 <= n <= 0x200a || n == 0x2028 || n == 0x2029 || n == 0x202f || n == 0x205f || n == 0x3000
  }

  function LeftStrip(s: string): (r: string) {
    if |s| > 0 && IsSpace(s[0]) then LeftStrip(s[1..]) else s
  }

  function RightStrip(s: string): (r: string) {
    if |s| > 0 && IsSpace(s[|s| - 1]) then RightStrip(s[..|s| - 1]) else s
  }

  function Strip(s: string): (r: string) { RightStrip(LeftStrip(s)) }

  ghost predicate NoEdgeSpace(s: string) {
    |s| > 0 ==> !IsSpace(s[0]) && !IsSpace(s[|s| - 1])
  }

  lemma {:induction false} LeftStripCut(s: string) returns (n: nat)
    ensures n <= |s| && LeftStrip(s) == s[n..] && forall k :: 0 <= k < n ==> IsSpace(s[k])
    ensures n < |s| ==> !IsSpace(s[n])
  {
    n := 0;
    if |s| > 0 && IsSpace(s[0]) {
      var t := s[1..];
      var m := LeftStripCut(t);
      n := m + 1;
      assert t[m..] == s[n..];
      assert forall k :: 1 <= k < n ==> s[k] == t[k - 1];
    }
  }

  lemma {:induction false} RightStripCut(s: string) returns (m: nat)
    ensures m <= |s| && RightStrip(s) == s[..m] && forall k :: m <= k < |s| ==> IsSpace(s[k])
    ensures m > 0 ==> !IsSpace(s[m - 1])
  {
    m := |s|;
    if |s| > 0 && IsSpace(s[|s| - 1]) {
      var t := s[..|s| - 1];
      m := RightStripCut(t);
      assert t[..m] == s[..m];
      assert forall k :: 0 <= k < |t| ==> s[k] == t[k];
    }
  }

  /** Stripping removes whitespace at both ends and nothing else. */
  lemma {:induction false} StripCut(s: string) returns (lo: nat, hi: nat)
    ensures lo <= hi <= |s| && Strip(s) == s[lo..hi]
    ensures lo < hi ==> !IsSpace(s[lo]) && !IsSpace(s[hi - 1])
    ensures forall k :: 0 <= k < lo || hi <= k < |s| ==> IsSpace(s[k])
  {
    lo := LeftStripCut(s);
    var t := s[lo..];
    var m := RightStripCut(t);
    hi := lo + m;
    assert t[..m] == s[lo..hi];
    assert forall k :: lo <= k < |s| ==> s[k] == t[k - lo];
  }

  lemma StripEdges(s: string)
    ensures NoEdgeSpace(Strip(s))
  {
    var lo, hi := StripCut(s);
  }

  lemma StripFixed(s: string)
    requires NoEdgeSpace(s)
    ensures Strip(s) == s
  {}

  lemma StripTwice(s: string)
    ensures Strip(Strip(s)) == Strip(s)
  {
    StripEdges(s);
    StripFixed(Strip(s));
  }

  // ------------------------------------------------------------------ digits

  predicate IsDigit(c: char) { '0' <= c <= '9' }

  predicate AllDigits(s: string) { forall k :: 0 <= k < |s| ==> IsDigit(s[k]) }

  function DigitValue(c: char): (d: nat)
    requires IsDigit(c)
    ensures d < 10
  {
    c as int - '0' as int
  }

  function DigitChar(d: nat): (c: char)
    requires d < 10
    ensures IsDigit(c) && DigitValue(c) == d
  {
    ('0' as int + d) as char
  }

  /** `int(s)` for a run of digits; leading zeros are allowed. */
  function NatOf(s: string): (n: nat)
    requires AllDigits(s)
  {
    if |s| == 0 then 0 else NatOf(s[..|s| - 1]) * 10 + DigitValue(s[|s| - 1])
  }

  /** `str(n)` for a natural number. */
  function DigitsOf(n: nat): (s: string)
    ensures |s| > 0 && AllDigits(s)
  {
    if n < 10 then [DigitChar(n)] else DigitsOf(n / 10) + [DigitChar(n % 10)]
  }

  function Zeros(n: nat): (s: string)
    ensures |s| == n && AllDigits(s)
  {
    seq(n, _ => '0')
  }

  lemma {:induction false} NatOfDigits(n: nat)
    ensures NatOf(DigitsOf(n)) == n
  {
    if n >= 10 {
      NatOfDigits(n / 10);
      assert DigitsOf(n)[..|DigitsOf(n)| - 1] == DigitsOf(n / 10);
    }
  }

  lemma {:induction false} NatOfPadded(z: nat, s: string)
    requires AllDigits(s)
    ensures AllDigits(Zeros(z) + s) && NatOf(Zeros(z) + s) == NatOf(s)
  {
    if |s| > 0 {
      NatOfPadded(z, s[..|s| - 1]);
      assert (Zeros(z) + s)[..z + |s| - 1] == Zeros(z) + s[..|s| - 1];
    } else {
      assert Zeros(z) + s == Zeros(z);
      NatOfZeros(z);
    }
  }

  lemma {:induction false} NatOfZeros(z: nat)
    ensures NatOf(Zeros(z)) == 0
  {
    if z > 0 {
      NatOfZeros(z - 1);
      assert Zeros(z)[..z - 1] == Zeros(z - 1);
    }
  }

  // ------------------------------------------------------------------ int

  function PrintInt(n: int): (s: string) {
    if n < 0 then "-" + DigitsOf(-n) else DigitsOf(n)
  }

  function WithoutUnderscores(s: string): (r: string) {
    if |s| == 0 then "" else
    if s[0] == '_' then WithoutUnderscores(s[1..]) else [s[0]] + WithoutUnderscores(s[1..])
  }

  lemma {:induction false} NoUnderscores(s: string)
    requires '_' !in s
    ensures WithoutUnderscores(s) == s
  {
    if |s| > 0 { NoUnderscores(s[1..]); }
  }

  lemma {:induction false} UnderscoresGone(s: string)
    requires forall k :: 0 <= k < |s| ==> IsDigit(s[k]) || s[k] == '_'
    ensures AllDigits(WithoutUnderscores(s))
  {
    if |s| > 0 { UnderscoresGone(s[1..]); }
  }

  /** Digit groups joined by single underscores, as `int` reads them. */
  predicate IsIntBody(s: string) {
    && |s| > 0 && IsDigit(s[0]) && IsDigit(s[|s| - 1])
    && (forall k :: 0 <= k < |s| ==> IsDigit(s[k]) || s[k] == '_')
    && (forall k :: 0 <= k < |s| - 1 ==> IsDigit(s[k]) || IsDigit(s[k + 1]))
  }

  predicate HasSign(s: string) { |s| > 0 && (s[0] == '-' || s[0] == '+') }

  function Unsigned(s: string): (r: string) { if HasSign(s) then s[1..] else s }

  predicate Negative(s: string) { |s| > 0 && s[0] == '-' }

  function IntOfBody(neg: bool, body: string): (r: Option<int>) {
    if IsIntBody(body) then
      UnderscoresGone(body);
      var n: int := NatOf(WithoutUnderscores(body));
      Some(if neg then -n else n)
    else None
  }

  function ParseInt(s: string): (r: Option<int>) { IntOfBody(Negative(s), Unsigned(s)) }

  /** Reading back what `str` wrote gives the same integer. */
  lemma {:induction false} IntRoundTrip(n: int)
    ensures ParseInt(PrintInt(n)) == Some(n)
    ensures NoEdgeSpace(PrintInt(n)) && |PrintInt(n)| > 0
  {
    var abs := if n < 0 then -n else n;
    NatOfDigits(abs);
    SignedInt(n < 0, DigitsOf(abs), abs);
    assert PrintInt(n) == (if n < 0 then "-" else "") + DigitsOf(abs);
  }

  lemma {:induction false} SignedInt(neg: bool, digits: string, n: nat)
    requires |digits| > 0 && AllDigits(digits) && NatOf(digits) == n
    ensures var s := (if neg then "-" else "") + digits;
            ParseInt(s) == Some(if neg then -(n as int) else n) && NoEdgeSpace(s)
  {
    IntBodyValue(neg, digits, n);
    SignedBody(neg, digits);
  }

  lemma {:induction false} IntBodyValue(neg: bool, digits: string, n: nat)
    requires |digits| > 0 && AllDigits(digits) && NatOf(digits) == n
    ensures IntOfBody(neg, digits) == Some(if neg then -(n as int) else n)
  {
    DigitsOnly(digits, '_');
    NoUnderscores(digits);
  }

  lemma SignedBody(neg: bool, digits: string)
    requires |digits| > 0 && AllDigits(digits)
    ensures var s := (if neg then "-" else "") + digits; Unsigned(s) == digits && Negative(s) == neg && NoEdgeSpace(s)
  {
    var s := (if neg then "-" else "") + digits;
    assert s[|s| - 1] == digits[|digits| - 1];
  }

  lemma DigitsOnly(s: string, c: char)
    requires AllDigits(s) && !IsDigit(c)
    ensures c !in s
  {}

  // ------------------------------------------------------------------ Decimal

  /** A finite `Decimal`: (-1)^neg * coeff * 10^exp. */
  datatype Dec = Dec(neg: bool, coeff: nat, exp: int)

  function Pow10(e: int): (r: real)
    ensures r > 0.0
    decreases if e < 0 then -e else e
  {
    if e == 0 then 1.0 else if e > 0 then 10.0 * Pow10(e - 1) else Pow10(e + 1) / 10.0
  }

  function DecValue(d: Dec): (x: real) {
    (if d.neg then -1.0 else 1.0) * (d.coeff as real) * Pow10(d.exp)
  }

  /** The place of the decimal point that `Decimal.__str__` picks, counted from the left
      of the coefficient's digits. */
  function PointPlace(left: int, exp: int): (p: int) {
    if exp <= 0 && left > -6 then left else 1
  }

  function PrintSigned(n: int): (s: string) { if n < 0 then "-" + DigitsOf(-n) else "+" + DigitsOf(n) }

  function PrintWhole(digits: string, point: int): (s: string)
    requires |digits| > 0 && point <= |digits|
  {
    if point <= 0 then "0" else digits[..point]
  }

  function PrintFraction(digits: string, point: int): (s: string)
    requires |digits| > 0 && point <= |digits|
  {
    if point <= 0 then Zeros(-point) + digits else digits[point..]
  }

  function Mantissa(whole: string, fraction: string): (s: string) {
    if fraction == "" then whole else whole + "." + fraction
  }

  function PrintExponent(n: int): (s: string) { if n == 0 then "" else "E" + PrintSigned(n) }

  function PrintMagnitude(coeff: nat, exp: int): (s: string) {
    var digits := DigitsOf(coeff);
    var left := exp + |digits|;
    var point := PointPlace(left, exp);
    Mantissa(PrintWhole(digits, point), PrintFraction(digits, point)) + PrintExponent(left - point)
  }

  /** `str(d)`: plain notation when the exponent is at most 0 and the first digit stands no more
      than six places after the point, scientific notation otherwise. */
  function PrintDec(d: Dec): (s: string) {
    (if d.neg then "-" else "") + PrintMagnitude(d.coeff, d.exp)
  }

  /** First position from `from` on of a character of `stops`, or the length. */
  function Find(s: string, stops: set<char>, from: nat := 0): (n: nat)
    requires from <= |s|
    ensures from <= n <= |s|
    ensures forall k :: from <= k < n ==> s[k] !in stops
    ensures n < |s| ==> s[n] in stops
    decreases |s| - from
  {
    if from == |s| || s[from] in stops then from else Find(s, stops, from + 1)
  }

  lemma FindAt(a: string, c: char, b: string, stops: set<char>)
    requires c in stops && forall k :: 0 <= k < |a| ==> a[k] !in stops
    ensures Find(a + [c] + b, stops) == |a|
  {
    var s := a + [c] + b;
    assert s[|a|] == c;
    assert forall k :: 0 <= k < |a| ==> s[k] == a[k];
  }

  lemma FindNone(a: string, stops: set<char>)
    requires forall k :: 0 <= k < |a| ==> a[k] !in stops
    ensures Find(a, stops) == |a|
  {}

  /** The exponent suffix: absent, or a letter, an optional sign and at least one digit. */
  function ParseExponent(s: string): (r: Option<int>) {
    if s == "" then Some(0) else
    var body := s[1..];
    if |Unsigned(body)| > 0 && AllDigits(Unsigned(body)) then
      var n: int := NatOf(Unsigned(body));
      Some(if Negative(body) then -n else n)
    else None
  }

  function FromParts(neg: bool, whole: string, fraction: string, exponent: Option<int>): (r: Option<Dec>) {
    var digits := whole + fraction;
    if exponent.Some? && |digits| > 0 && AllDigits(digits)
    then Some(Dec(neg, NatOf(digits), exponent.value - |fraction|)) else None
  }

  function ParseUnsigned(neg: bool, s: string): (r: Option<Dec>) {
    var cut := Find(s, {'e', 'E'});
    var m := s[..cut];
    var dot := Find(m, {'.'});
    FromParts(neg, m[..dot], if dot < |m| then m[dot + 1..] else "", ParseExponent(s[cut..]))
  }

  /** `Decimal(s)` on the numbers it reads as finite; anything else is refused. */
  function ParseDec(s: string): (r: Option<Dec>) {
    var t := WithoutUnderscores(s);
    ParseUnsigned(Negative(t), Unsigned(t))
  }

  lemma ExponentSplit(whole: string, fraction: string, tail: string)
    requires AllDigits(whole) && AllDigits(fraction)
    requires tail != "" ==> tail[0] == 'E'
    ensures Find(Mantissa(whole, fraction) + tail, {'e', 'E'}) == |Mantissa(whole, fraction)|
  {
    var m := Mantissa(whole, fraction);
    assert forall k :: 0 <= k < |m| ==> IsDigit(m[k]) || m[k] == '.';
    if tail == "" {
      assert m + tail == m;
      FindNone(m, {'e', 'E'});
    } else {
      assert m + tail == m + [tail[0]] + tail[1..];
      FindAt(m, tail[0], tail[1..], {'e', 'E'});
    }
  }

  lemma PointSplit(whole: string, fraction: string)
    requires AllDigits(whole) && AllDigits(fraction)
    ensures var m := Mantissa(whole, fraction);
            var dot := Find(m, {'.'});
            m[..dot] == whole && (if dot < |m| then m[dot + 1..] else "") == fraction
  {
    var m := Mantissa(whole, fraction);
    if fraction == "" {
      FindNone(m, {'.'});
    } else {
      assert m == whole + ['.'] + fraction;
      FindAt(whole, '.', fraction, {'.'});
    }
  }

  lemma ParseMantissa(neg: bool, whole: string, fraction: string, tail: string, e: int)
    requires AllDigits(whole) && |whole| > 0 && AllDigits(fraction)
    requires tail != "" ==> tail[0] == 'E'
    requires ParseExponent(tail) == Some(e)
    ensures ParseUnsigned(neg, Mantissa(whole, fraction) + tail) == FromParts(neg, whole, fraction, Some(e))
  {
    var m := Mantissa(whole, fraction);
    var s := m + tail;
    ExponentSplit(whole, fraction, tail);
    PointSplit(whole, fraction);
    assert s[..|m|] == m && s[|m|..] == tail;
  }

  lemma ExponentRoundTrip(n: int)
    ensures ParseExponent(PrintExponent(n)) == Some(n)
    ensures '_' !in PrintExponent(n)
    ensures n != 0 ==> PrintExponent(n)[0] == 'E' && !IsSpace(PrintExponent(n)[|PrintExponent(n)| - 1])
  {
    if n != 0 {
      var digits := DigitsOf(if n < 0 then -n else n);
      NatOfDigits(if n < 0 then -n else n);
      DigitsOnly(digits, '_');
      var s := "E" + PrintSigned(n);
      assert s[1..] == PrintSigned(n);
      assert Unsigned(PrintSigned(n)) == digits;
      assert s[|s| - 1] == digits[|digits| - 1];
    }
  }

  lemma MantissaEdges(whole: string, fraction: string)
    requires AllDigits(whole) && |whole| > 0 && AllDigits(fraction)
    ensures var m := Mantissa(whole, fraction); '_' !in m && |m| > 0 && IsDigit(m[0]) && IsDigit(m[|m| - 1])
  {
    DigitsOnly(whole, '_');
    DigitsOnly(fraction, '_');
    var m := Mantissa(whole, fraction);
    assert m[0] == whole[0];
    assert m[|m| - 1] == if fraction == "" then whole[|whole| - 1] else fraction[|fraction| - 1];
  }

  lemma {:induction false} PaddedParts(digits: string, zeros: nat)
    requires AllDigits(digits)
    ensures var s := "0" + (Zeros(zeros) + digits); AllDigits(s) && NatOf(s) == NatOf(digits)
  {
    assert "0" + (Zeros(zeros) + digits) == Zeros(zeros + 1) + digits;
    NatOfPadded(zeros + 1, digits);
  }

  lemma {:induction false} PartsValue(neg: bool, whole: string, fraction: string, e: int, n: nat)
    requires |whole| > 0 && AllDigits(whole + fraction) && NatOf(whole + fraction) == n
    ensures FromParts(neg, whole, fraction, Some(e)) == Some(Dec(neg, n, e - |fraction|))
  {}

  /** The printed magnitude as a whole part, a fraction and an exponent that say the same number. */
  lemma {:induction false} MagnitudeShape(d: Dec) returns (whole: string, fraction: string, e: int)
    ensures PrintMagnitude(d.coeff, d.exp) == Mantissa(whole, fraction) + PrintExponent(e)
    ensures |whole| > 0 && AllDigits(whole) && AllDigits(fraction)
    ensures FromParts(d.neg, whole, fraction, Some(e)) == Some(d)
  {
    var digits := DigitsOf(d.coeff);
    NatOfDigits(d.coeff);
    var left := d.exp + |digits|;
    var point := PointPlace(left, d.exp);
    e := left - point;
    whole, fraction := PrintWhole(digits, point), PrintFraction(digits, point);
    SplitValue(d.neg, digits, point, e, d.coeff);
    assert Dec(d.neg, d.coeff, e - (|digits| - point)) == d;
  }

  lemma {:induction false} SplitValue(neg: bool, digits: string, point: int, e: int, n: nat)
    requires |digits| > 0 && AllDigits(digits) && NatOf(digits) == n && point <= |digits|
    ensures var whole, fraction := PrintWhole(digits, point), PrintFraction(digits, point);
            && |whole| > 0 && AllDigits(whole) && AllDigits(fraction)
            && FromParts(neg, whole, fraction, Some(e)) == Some(Dec(neg, n, e - (|digits| - point)))
  {
    if point <= 0 {
      PaddedParts(digits, -point);
      PartsValue(neg, "0", Zeros(-point) + digits, e, n);
    } else {
      assert digits[..point] + digits[point..] == digits;
      PartsValue(neg, digits[..point], digits[point..], e, n);
    }
  }

  lemma {:induction false} ShapeParse(whole: string, fraction: string, tail: string, e: int, d: Dec)
    requires |whole| > 0 && AllDigits(whole) && AllDigits(fraction)
    requires tail != "" ==> tail[0] == 'E'
    requires ParseExponent(tail) == Some(e)
    requires FromParts(d.neg, whole, fraction, Some(e)) == Some(d)
    ensures ParseUnsigned(d.neg, Mantissa(whole, fraction) + tail) == Some(d)
  {
    ParseMantissa(d.neg, whole, fraction, tail, e);
  }

  lemma {:induction false} SignedText(mantissa: string, tail: string, d: Dec)
    requires '_' !in mantissa && |mantissa| > 0 && IsDigit(mantissa[0]) && '_' !in tail
    requires ParseUnsigned(d.neg, mantissa + tail) == Some(d)
    ensures ParseDec((if d.neg then "-" else "") + (mantissa + tail)) == Some(d)
  {
    SignedParse(d.neg, mantissa + tail);
  }

  lemma SignedEdges(neg: bool, mantissa: string, tail: string)
    requires |mantissa| > 0 && IsDigit(mantissa[0]) && IsDigit(mantissa[|mantissa| - 1])
    requires tail == "" || !IsSpace(tail[|tail| - 1])
    ensures var s := (if neg then "-" else "") + (mantissa + tail); |s| > 0 && NoEdgeSpace(s)
  {}

  lemma {:induction false} ShapedText(whole: string, fraction: string, e: int, d: Dec, s: string)
    requires |whole| > 0 && AllDigits(whole) && AllDigits(fraction)
    requires FromParts(d.neg, whole, fraction, Some(e)) == Some(d)
    requires s == (if d.neg then "-" else "") + (Mantissa(whole, fraction) + PrintExponent(e))
    ensures ParseDec(s) == Some(d) && |s| > 0 && NoEdgeSpace(s)
  {
    var m, tail := Mantissa(whole, fraction), PrintExponent(e);
    ExponentRoundTrip(e);
    MantissaEdges(whole, fraction);
    ShapeParse(whole, fraction, tail, e, d);
    SignedText(m, tail, d);
    SignedEdges(d.neg, m, tail);
  }

  /** Reading back what `str` wrote gives the same sign, coefficient and exponent. */
  lemma {:induction false} DecRoundTrip(d: Dec)
    ensures ParseDec(PrintDec(d)) == Some(d)
    ensures NoEdgeSpace(PrintDec(d)) && |PrintDec(d)| > 0
  {
    var s := PrintDec(d);
    assert ParseDec(s) == Some(d) && |s| > 0 && NoEdgeSpace(s) by {
      var whole, fraction, e := MagnitudeShape(d);
      ShapedText(whole, fraction, e, d, s);
    }
  }

  lemma {:induction false} SignedParse(neg: bool, m: string)
    requires '_' !in m && |m| > 0 && IsDigit(m[0])
    ensures ParseDec((if neg then "-" else "") + m) == ParseUnsigned(neg, m)
  {
    var s := (if neg then "-" else "") + m;
    assert Unsigned(s) == m && Negative(s) == neg;
    NoUnderscores(s);
  }

  /** A whole number with exponent 0 prints as its digits. */
  lemma PlainPrint(n: nat)
    ensures PrintDec(Dec(false, n, 0)) == DigitsOf(n)
  {
    var digits := DigitsOf(n);
    assert digits[..|digits|] == digits && digits[|digits|..] == "";
    assert digits + "" == digits && "" + digits == digits;
  }

  /** `str` uses scientific notation exactly when the exponent is positive or the adjusted exponent, that of
      the first digit, is below -6. */
  lemma ScientificIff(d: Dec)
    ensures 'E' in PrintDec(d) <==> d.exp > 0 || d.exp + |DigitsOf(d.coeff)| - 1 < -6
  {
    var digits := DigitsOf(d.coeff);
    var left := d.exp + |digits|;
    var point := PointPlace(left, d.exp);
    var whole, fraction := PrintWhole(digits, point), PrintFraction(digits, point);
    var mantissa, tail := Mantissa(whole, fraction), PrintExponent(left - point);
    assert 'E' !in mantissa by { MantissaPlain(digits, point); }
    assert 'E' in tail <==> left != point by { if left != point { assert tail[0] == 'E'; } }
    assert 'E' in PrintDec(d) <==> 'E' in mantissa || 'E' in tail;
  }

  lemma MantissaPlain(digits: string, point: int)
    requires |digits| > 0 && AllDigits(digits) && point <= |digits|
    ensures 'E' !in Mantissa(PrintWhole(digits, point), PrintFraction(digits, point))
  {
    var whole, fraction := PrintWhole(digits, point), PrintFraction(digits, point);
    assert AllDigits(whole) && AllDigits(fraction);
    DigitsOnly(whole, 'E');
    DigitsOnly(fraction, 'E');
  }
}
