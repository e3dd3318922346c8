/** The slice of ECMAScript number handling the vote guard relies on:
    `Number.prototype.toString` on an integer time value (what `markAsVoted`
    stores), the global `parseInt` with no radix (what `checkIfAlreadyVoted`
    applies to the stored string) and the time-value range of `new Date(x)`.
    Numbers are exact integers here; NaN is `None`. */
module JsNumbers {
  import opened Wrappers

  /** Largest magnitude of an ECMAScript time value, in milliseconds
      (section 21.4.1.1 of ECMA-262): 100 000 000 days. */
  const MaxTimeValue: int := 8_640_000_000_000_000

  /** A valid time value: what `Date.now()` returns and what `new Date(x)`
      keeps after TimeClip. */
  type TimeValue = t: int | -MaxTimeValue <= t <= MaxTimeValue

  /** StrWhiteSpaceChar (section 7.1.4.1 of ECMA-262): WhiteSpace and
      LineTerminator, which `parseInt` skips at the start of its input. */
  predicate IsStrWhiteSpace(c: char) {
    c == '\t' || c == '\n' || c == '\U{B}' || c == '\U{C}' || c == '\r' || c == ' ' ||
    c == '\U{A0}' || c == '\U{1680}' || ('\U{2000}' <= c <= '\U{200A}') ||
    c == '\U{2028}' || c == '\U{2029}' || c == '\U{202F}' || c == '\U{205F}' ||
    c == '\U{3000}' || c == '\U{FEFF}'
  }

  /** A digit of the given radix (10 or 16), either letter case. */
  predicate IsDigit(c: char, radix: nat) {
    ('0' <= c <= '9') || (radix == 16 && (('a' <= c <= 'f') || ('A' <= c <= 'F')))
  }

  function DigitValue(c: char): (d: nat)
    requires IsDigit(c, 16)
    ensures d < 16
    ensures '0' <= c <= '9' ==> d < 10
  {
    if '0' <= c <= '9' then c as int - '0' as int
    else if 'a' <= c <= 'f' then c as int - 'a' as int + 10
    else c as int - 'A' as int + 10
  }

  function DigitChar(d: nat): (c: char)
    requires d < 10
    ensures IsDigit(c, 10) && DigitValue(c) == d
  {
    ('0' as int + d) as char
  }

  predicate AllDigits(s: string, radix: nat) {
    forall i :: 0 <= i < |s| ==> IsDigit(s[i], radix)
  }

  /** Length of the longest prefix of `s` made of whitespace. */
  function LeadingWhiteSpace(s: string): (n: nat)
    ensures n <= |s|
    ensures forall i :: 0 <= i < n ==> IsStrWhiteSpace(s[i])
    ensures n < |s| ==> !IsStrWhiteSpace(s[n])
  {
    if |s| > 0 && IsStrWhiteSpace(s[0]) then 1 + LeadingWhiteSpace(s[1..]) else 0
  }

  /** Length of the longest prefix of `s` made of radix digits: the digits
      `parseInt` reads before it stops at the first other character. */
  function DigitPrefixLength(s: string, radix: nat): (n: nat)
    ensures n <= |s|
    ensures AllDigits(s[..n], radix)
    ensures n < |s| ==> !IsDigit(s[n], radix)
  {
    if |s| > 0 && IsDigit(s[0], radix) then
      var m := DigitPrefixLength(s[1..], radix);
      assert s[..1 + m] == [s[0]] + s[1..][..m];
      1 + m
    else 0
  }

  /** The mathematical value of a digit string, most significant digit first. */
  function DigitsValue(s: string, radix: nat): nat
    requires AllDigits(s, radix)
  {
    if s == [] then 0
    else DigitsValue(s[..|s| - 1], radix) * radix + DigitValue(s[|s| - 1])
  }

  /** The global `parseInt(s)` with no radix argument (section 19.2.5 of
      ECMA-262): skip leading whitespace, take an optional sign, take a
      "0x"/"0X" prefix as radix 16 (else radix 10), read the longest digit
      prefix; no digit at all gives NaN (`None`). -0 is 0 here. */
  function ParseInt(s: string): (r: Option<int>)
    ensures r.None? <==> (var t := s[LeadingWhiteSpace(s)..];
                          var u := if |t| > 0 && (t[0] == '-' || t[0] == '+') then t[1..] else t;
                          var v := if |u| >= 2 && u[0] == '0' && (u[1] == 'x' || u[1] == 'X') then u[2..] else u;
                          |v| == 0 || !IsDigit(v[0], if v == u then 10 else 16))
  {
    var t := s[LeadingWhiteSpace(s)..];
    var negative := |t| > 0 && t[0] == '-';
    var u := if |t| > 0 && (t[0] == '-' || t[0] == '+') then t[1..] else t;
    var hex := |u| >= 2 && u[0] == '0' && (u[1] == 'x' || u[1] == 'X');
    var radix := if hex then 16 else 10;
    var v := if hex then u[2..] else u;
    var z := v[..DigitPrefixLength(v, radix)];
    if z == [] then None
    else
      var magnitude: int := DigitsValue(z, radix);
      Some(if negative then -magnitude else magnitude)
  }

  /** Decimal digits of a natural number, without leading zeros. */
  function NatToDecimal(n: nat): (s: string)
    ensures |s| >= 1 && AllDigits(s, 10)
    ensures |s| > 1 ==> s[0] != '0'
  {
    if n < 10 then [DigitChar(n)] else NatToDecimal(n / 10) + [DigitChar(n % 10)]
  }

  /** `Number.prototype.toString()` of an integer below 10^21 in magnitude
      (section 6.1.6.1.20 of ECMA-262): an optional minus sign, then the
      decimal digits. */
  function NumberToString(n: int): (s: string)
    ensures |s| >= 1
    ensures s[0] == '-' <==> n < 0
  {
    if n < 0 then "-" + NatToDecimal(-n) else NatToDecimal(n)
  }

  /** TimeClip (section 21.4.1.31 of ECMA-262) applied by `new Date(x)`:
      NaN or a value beyond the time-value range gives an Invalid Date. */
  function TimeClip(x: Option<int>): (r: Option<TimeValue>)
    ensures r.Some? <==> x.Some? && -MaxTimeValue <= x.value <= MaxTimeValue
    ensures r.Some? ==> r.value == x.value
  {
    match x
    case None => None
    case Some(v) => if -MaxTimeValue <= v <= MaxTimeValue then Some(v) else None
  }

  lemma {:induction false} DecimalValue(n: nat)
    ensures DigitsValue(NatToDecimal(n), 10) == n
  {
    var s := NatToDecimal(n);
    if n >= 10 {
      DecimalValue(n / 10);
      assert s[..|s| - 1] == NatToDecimal(n / 10);
    }
  }

  lemma AllDigitsPrefixLength(s: string, radix: nat)
    requires AllDigits(s, radix)
    ensures DigitPrefixLength(s, radix) == |s|
  {
  }

  /** Reading back what `toString` wrote gives the same integer. */
  lemma {:induction false} ParseIntNumberToString(n: int)
    ensures ParseInt(NumberToString(n)) == Some(n)
  {
    var d := NatToDecimal(if n < 0 then -n else n);
    var s := NumberToString(n);
    assert !IsStrWhiteSpace(s[0]);
    assert LeadingWhiteSpace(s) == 0;
    assert s[0..] == s;
    var u := if n < 0 then s[1..] else s;
    assert u == d;
    assert |d| >= 2 ==> IsDigit(d[1], 10);
    AllDigitsPrefixLength(d, 10);
    assert d[..|d|] == d;
    DecimalValue(if n < 0 then -n else n);
  }
}
