/**
 * Decimal integer conversion as Go's strconv.Atoi performs it on a 64-bit platform:
 * an optional '+' or '-' sign followed by one or more ASCII digits, whose value must
 * lie in the signed 64-bit range. FormatInt is its inverse on that range.
 */
module Strconv {
  import opened Wrappers

  const MinInt64: int := -0x8000_0000_0000_0000
  const MaxInt64: int := 0x7fff_ffff_ffff_ffff
  const MaxUint64: int := 0xffff_ffff_ffff_ffff

  predicate InInt64(n: int) { MinInt64 <= n <= MaxInt64 }

  /** The two reasons strconv reports: ErrSyntax and ErrRange. */
  datatype NumError = ErrSyntax | ErrRange

  predicate IsDigit(c: char) { '0' <= c <= '9' }

  predicate AllDigits(s: string) { forall i :: 0 <= i < |s| ==> IsDigit(s[i]) }

  function DigitValue(c: char): nat
    requires IsDigit(c)
  {
    c as int - '0' as int
  }

  function DigitChar(d: nat): (c: char)
    requires d < 10
    ensures IsDigit(c) && DigitValue(c) == d
  {
    ('0' as int + d) as char
  }

  /** The value of a run of digits, read most significant first. */
  function DigitsValue(s: string): nat
    requires AllDigits(s)
  {
    if s == [] then 0 else DigitsValue(s[..|s| - 1]) * 10 + DigitValue(s[|s| - 1])
  }

  /** s without its leading sign, if it has one. */
  function Unsigned(s: string): string
  {
    if |s| > 0 && (s[0] == '+' || s[0] == '-') then s[1..] else s
  }

  predicate IsNegative(s: string) { |s| > 0 && s[0] == '-' }

  /** s is an optional sign followed by at least one digit. */
  predicate IsDecimal(s: string)
  {
    |Unsigned(s)| > 0 && AllDigits(Unsigned(s))
  }

  /** The mathematical value of a decimal string, without any range limit. */
  function DecimalValue(s: string): int
    requires IsDecimal(s)
  {
    if IsNegative(s) then -(DigitsValue(Unsigned(s)) as int) else DigitsValue(Unsigned(s))
  }

  /** Length of the longest prefix of s made of digits only. */
  function DigitPrefixLen(s: string): (k: nat)
    ensures k <= |s| && AllDigits(s[..k])
    ensures k < |s| ==> !IsDigit(s[k])
  {
    if s == [] || !IsDigit(s[0]) then 0
    else
      var k := 1 + DigitPrefixLen(s[1..]);
      assert s[..k] == [s[0]] + s[1..][..k - 1];
      k
  }

  /**
   * strconv.Atoi. Digits are scanned left to right after the sign: a non-digit is a
   * syntax error unless the digits before it already overflowed 64 unsigned bits, in
   * which case the scan stopped earlier with a range error; a well-formed number outside
   * the signed 64-bit range is a range error.
   */
  function Atoi(s: string): (r: Result<int, NumError>)
    ensures r.Success? <==> IsDecimal(s) && InInt64(DecimalValue(s))
    ensures r.Success? ==> r.value == DecimalValue(s)
    ensures r.Failure? && IsDecimal(s) ==> r.error == ErrRange
  {
    var body := Unsigned(s);
    var k := DigitPrefixLen(body);
    if k == 0 || k < |body| then
      Failure(if DigitsValue(body[..k]) > MaxUint64 then ErrRange else ErrSyntax)
    else
      assert body[..k] == body;
      var v: int := if IsNegative(s) then -(DigitsValue(body) as int) else DigitsValue(body);
      if InInt64(v) then Success(v) else Failure(ErrRange)
  }

  /** The text of a NumError as strconv's NumError.Error() writes it (quoting without escapes). */
  function NumErrorText(s: string, e: NumError): string
  {
    "strconv.Atoi: parsing \"" + s + "\": " + (if e == ErrSyntax then "invalid syntax" else "value out of range")
  }

  /** Decimal digits of n, most significant first, without leading zeros. */
  function Digits(n: nat): (s: string)
    ensures |s| > 0 && AllDigits(s)
    decreases n
  {
    if n < 10 then [DigitChar(n)] else Digits(n / 10) + [DigitChar(n % 10)]
  }

  /** strconv.Itoa / FormatInt(n, 10), over unbounded integers. */
  function FormatInt(n: int): (s: string)
  {
    if n < 0 then "-" + Digits(-n) else Digits(n)
  }

  lemma {:induction false} DigitsValueOfDigits(n: nat)
    ensures DigitsValue(Digits(n)) == n
    decreases n
  {
    var s := Digits(n);
    if n < 10 {
      assert s[..|s| - 1] == [];
    } else {
      DigitsValueOfDigits(n / 10);
      assert s[..|s| - 1] == Digits(n / 10);
    }
  }

  /** FormatInt is decimal and its value is n. */
  lemma FormatIntIsDecimal(n: int)
    ensures IsDecimal(FormatInt(n)) && DecimalValue(FormatInt(n)) == n
  {
    var s := FormatInt(n);
    if n < 0 {
      assert Unsigned(s) == Digits(-n);
      DigitsValueOfDigits(-n);
    } else {
      assert IsDigit(s[0]);
      assert Unsigned(s) == Digits(n);
      DigitsValueOfDigits(n);
    }
  }

  /** Round trip: Atoi reads back what FormatInt writes, and reports ErrRange outside 64 bits. */
  lemma AtoiFormatInt(n: int)
    ensures Atoi(FormatInt(n)) == if InInt64(n) then Success(n) else Failure(ErrRange)
  {
    FormatIntIsDecimal(n);
  }
}
