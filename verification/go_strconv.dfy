/** The three conversions of Go's `strconv` package the plugin calls, each as
    Go computes it with base 10: `ParseUint(s, 10, 64)`, `Atoi(s)` and
    `ParseBool(s)`, each returning Go's `(value, error)` pair; and the decimal
    rendering `Itoa`/`FormatUint` that they invert. */
module GoStrconv {
  import opened GoRuntime

  predicate IsDigit(c: char) { '0' <= c <= '9' }

  function DigitValue(c: char): (d: nat)
    requires IsDigit(c)
    ensures d <= 9
  {
    c as int - '0' as int
  }

  function DigitChar(d: nat): (c: char)
    requires d <= 9
    ensures IsDigit(c) && DigitValue(c) == d
  {
    ('0' as int + d) as char
  }

  predicate AllDigits(s: string) {
    forall i :: 0 <= i < |s| ==> IsDigit(s[i])
  }

  /** A non-empty run of decimal digits. */
  predicate IsDecimal(s: string) {
    |s| > 0 && AllDigits(s)
  }

  /** The number a run of digits denotes, read most significant digit first. */
  function Value(s: string): nat
    requires AllDigits(s)
  {
    if |s| == 0 then 0 else Value(s[..|s| - 1]) * 10 + DigitValue(s[|s| - 1])
  }

  /** The first value whose tenfold no longer fits: Go's `cutoff` for base 10. */
  const CUTOFF: nat := MAX_UINT64 / 10 + 1

  /** Where the digit loop of `ParseUint` ends: with a value, at a character
      that is not a digit, or at the first digit that overflows 64 bits. */
  datatype Scan = Scanned(n: uint64) | SyntaxStop | RangeStop

  /** The digit loop of `ParseUint`, character by character from the left; it
      stops at whichever comes first, a bad character or an overflow. */
  function ScanDecimal(s: string): (r: Scan)
    ensures r.Scanned? <==> AllDigits(s) && Value(s) <= MAX_UINT64
    ensures r.Scanned? ==> r.n == Value(s)
    ensures AllDigits(s) ==> !r.SyntaxStop?
    ensures |s| > 0 && !IsDigit(s[0]) ==> r == SyntaxStop
    decreases |s|
  {
    if |s| == 0 then Scanned(0)
    else
      var p := s[..|s| - 1];
      var c := s[|s| - 1];
      assert |p| > 0 ==> p[0] == s[0];
      assert AllDigits(s) <==> AllDigits(p) && IsDigit(c) by {
        if AllDigits(p) && IsDigit(c) {
          forall i | 0 <= i < |s| ensures IsDigit(s[i]) {
            if i < |s| - 1 { assert s[i] == p[i]; }
          }
        }
      }
      match ScanDecimal(p)
      case Scanned(n) =>
        if !IsDigit(c) then SyntaxStop
        else if n >= CUTOFF then RangeStop
        else if n * 10 + DigitValue(c) > MAX_UINT64 then RangeStop
        else Scanned(n * 10 + DigitValue(c))
      case SyntaxStop =>
        assert !AllDigits(p);
        SyntaxStop
      case RangeStop =>
        assert !AllDigits(s) || Value(p) > MAX_UINT64;
        RangeStop
  }

  /** `strconv.ParseUint(s, 10, 64)`: the value of a run of digits that fits in
      64 bits, or a syntax error with 0, or a range error with the largest value. */
  function ParseUint(s: string): (r: (uint64, Option<Error>))
    ensures r.1.None? <==> IsDecimal(s) && Value(s) <= MAX_UINT64
    ensures r.1.None? ==> r.0 == Value(s)
    ensures r.1.Some? ==> r.1.value.NumError? && r.1.value.func == "ParseUint" && r.1.value.num == s
    ensures r.1.Some? ==> r.0 == (if r.1.value.cause == ErrRange then MAX_UINT64 else 0)
    ensures IsDecimal(s) && Value(s) > MAX_UINT64 ==> r == (MAX_UINT64, Some(NumError("ParseUint", s, ErrRange)))
  {
    if s == "" then (0, Some(NumError("ParseUint", s, ErrSyntax)))
    else
      match ScanDecimal(s)
      case Scanned(n) => (n, None)
      case SyntaxStop => (0, Some(NumError("ParseUint", s, ErrSyntax)))
      case RangeStop => (MAX_UINT64, Some(NumError("ParseUint", s, ErrRange)))
  }

  /** The digits of a signed decimal: `s` without one leading '+' or '-'. */
  function Unsigned(s: string): string {
    if |s| > 0 && (s[0] == '+' || s[0] == '-') then s[1..] else s
  }

  predicate IsNegative(s: string) { |s| > 0 && s[0] == '-' }

  /** An optional sign followed by a non-empty run of digits. */
  predicate IsInteger(s: string) { IsDecimal(Unsigned(s)) }

  function SignedValue(s: string): int
    requires IsInteger(s)
  {
    if IsNegative(s) then -(Value(Unsigned(s)) as int) else Value(Unsigned(s))
  }

  function Clamp(n: int): int64 {
    if n > MAX_INT64 then MAX_INT64 else if n < MIN_INT64 then MIN_INT64 else n
  }

  /** `strconv.Atoi(s)` on a 64-bit platform, computed as `ParseInt(s, 10, 0)`
      computes it (the short-string fast path gives the same answers): 0 with a
      syntax error, the value, or the value clamped to 64 bits with a range error. */
  function Atoi(s: string): (r: (int64, Option<Error>))
  {
    if s == "" then (0, Some(NumError("Atoi", s, ErrSyntax)))
    else
      var neg := IsNegative(s);
      var (un, e) := ParseUint(Unsigned(s));
      if e.Some? && e.value.cause != ErrRange then (0, Some(NumError("Atoi", s, e.value.cause)))
      else if !neg && un > MAX_INT64 then (MAX_INT64, Some(NumError("Atoi", s, ErrRange)))
      else if neg && un > -MIN_INT64 then (MIN_INT64, Some(NumError("Atoi", s, ErrRange)))
      else (if neg then -(un as int) else un, None)
  }

  /** On a signed decimal, `Atoi` gives its value clamped to 64 bits, and fails
      exactly when the clamping changed it. */
  lemma AtoiOfInteger(s: string)
    requires IsInteger(s)
    ensures Atoi(s).0 == Clamp(SignedValue(s))
    ensures Atoi(s).1.None? <==> MIN_INT64 <= SignedValue(s) <= MAX_INT64
  {
  }

  /** Text that does not start (after an optional sign) with a digit gives 0
      and a syntax error. */
  lemma AtoiOfNonNumeric(s: string)
    requires |Unsigned(s)| == 0 || !IsDigit(Unsigned(s)[0])
    ensures Atoi(s) == (0, Some(NumError("Atoi", s, ErrSyntax)))
  {
    var u := Unsigned(s);
    if |u| > 0 {
      assert !AllDigits(u);
    }
  }

  /** `Atoi` on text that is not an in-range signed decimal: 0 with a syntax
      error when there are no digits after the sign or the digit loop meets
      another character first, and the 64-bit clamp in the direction of the
      sign with a range error when the digits overflow before any other
      character is reached. */
  lemma AtoiFailures(s: string)
    ensures Unsigned(s) == "" || ScanDecimal(Unsigned(s)) == SyntaxStop ==>
      Atoi(s) == (0, Some(NumError("Atoi", s, ErrSyntax)))
    ensures Unsigned(s) != "" && ScanDecimal(Unsigned(s)) == RangeStop ==>
      Atoi(s) == (if IsNegative(s) then MIN_INT64 else MAX_INT64, Some(NumError("Atoi", s, ErrRange)))
  {
  }

  const TRUE_LITERALS: seq<string> := ["1", "t", "T", "true", "TRUE", "True"]
  const FALSE_LITERALS: seq<string> := ["0", "f", "F", "false", "FALSE", "False"]

  /** `strconv.ParseBool(s)`: true only for a true literal; false with a syntax
      error for anything that is not one of the twelve literals. */
  function ParseBool(s: string): (r: (bool, Option<Error>))
  {
    if Matches(s, TRUE_LITERALS) then (true, None)
    else if Matches(s, FALSE_LITERALS) then (false, None)
    else (false, Some(NumError("ParseBool", s, ErrSyntax)))
  }

  /** `strconv.FormatUint(n, 10)`: the digits of `n`, without leading zeros. */
  function FormatUint(n: nat): (s: string)
    ensures IsDecimal(s)
    decreases n
  {
    if n < 10 then [DigitChar(n)] else FormatUint(n / 10) + [DigitChar(n % 10)]
  }

  /** `strconv.Itoa(n)`: the digits of |n|, after a '-' when n is negative. */
  function Itoa(n: int): string {
    if n < 0 then "-" + FormatUint(-n) else FormatUint(n)
  }

  /** `strconv.FormatBool(b)`. */
  function FormatBool(b: bool): string {
    if b then "true" else "false"
  }

  lemma {:induction false} ValueOfFormatUint(n: nat)
    ensures Value(FormatUint(n)) == n
    decreases n
  {
    var s := FormatUint(n);
    if n >= 10 {
      ValueOfFormatUint(n / 10);
      assert s[..|s| - 1] == FormatUint(n / 10);
    }
  }

  /** `ParseUint` reads back what `FormatUint` writes. */
  lemma ParseUintFormatUint(n: uint64)
    ensures ParseUint(FormatUint(n)) == (n, None)
  {
    ValueOfFormatUint(n);
  }

  /** `Atoi` reads back what `Itoa` writes, for every 64-bit integer. */
  lemma AtoiItoa(n: int64)
    ensures Atoi(Itoa(n)) == (n, None)
  {
    var s := Itoa(n);
    var k: nat := if n < 0 then -(n as int) else n;
    ParseUintFormatUint(k);
    assert Unsigned(s) == FormatUint(k);
    assert IsNegative(s) <==> n < 0;
  }

  /** `ParseBool` reads back what `FormatBool` writes. */
  lemma ParseBoolFormatBool(b: bool)
    ensures ParseBool(FormatBool(b)) == (b, None)
  {
  }

  /** `ParseBool` succeeds exactly on the twelve literals and is true exactly on
      the six true ones; anything else reads as false. */
  lemma ParseBoolLiterals(s: string)
    ensures ParseBool(s).1.None? <==> s in TRUE_LITERALS + FALSE_LITERALS
    ensures ParseBool(s).0 <==> s in TRUE_LITERALS
  {
    MatchesIsIn(s, TRUE_LITERALS);
    MatchesIsIn(s, FALSE_LITERALS);
  }
}
