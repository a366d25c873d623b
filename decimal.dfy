/**
  Decimal text for 64-bit unsigned integers, as both services use it:
  fmt.Sprintf("%d", n) to write a number and strconv.ParseUint(s, 10, 64)
  to read one back. ParseUint follows the Go library's scan: left to right,
  failing with a syntax error at the first character that is not a digit and
  with a range error as soon as the value read so far no longer fits.
 */
module Decimal {
  import opened Wrappers

  /** 2^64: every uint64 is below it. */
  const U64_LIMIT: int := 0x1_0000_0000_0000_0000

  type u64 = x: int | 0 <= x < U64_LIMIT

  /** The two ways strconv.ParseUint rejects its input (strconv.ErrSyntax, strconv.ErrRange). */
  datatype NumError = InvalidSyntax | OutOfRange

  predicate IsDigit(c: char) {
    '0' <= c <= '9'
  }

  predicate AllDigits(s: string) {
    forall i :: 0 <= i < |s| ==> IsDigit(s[i])
  }

  function DigitOf(c: char): (d: nat)
    requires IsDigit(c)
    ensures d < 10
  {
    (c as int) - ('0' as int)
  }

  function DigitChar(d: nat): (c: char)
    requires d < 10
    ensures IsDigit(c) && DigitOf(c) == d
  {
    (('0' as int) + d) as char
  }

  /** The number a string of digits denotes in base 10, with no bound on its size. */
  function Value(s: string): nat
    requires AllDigits(s)
  {
    if s == [] then 0 else Value(s[..|s| - 1]) * 10 + DigitOf(s[|s| - 1])
  }

  /** The strings strconv.ParseUint(s, 10, 64) accepts: non-empty, digits only, value below 2^64. */
  predicate IsDecimal(s: string) {
    s != [] && AllDigits(s) && Value(s) < U64_LIMIT
  }

  /** A decimal with no leading zero, except "0" itself: the form fmt.Sprintf("%d") produces. */
  predicate IsCanonical(s: string) {
    IsDecimal(s) && (s[0] != '0' || |s| == 1)
  }

  /** strconv.ParseUint(s, 10, 64). */
  function ParseUint(s: string): Result<u64, NumError> {
    if s == [] then Err(InvalidSyntax) else Scan(s, 0, 0)
  }

  /** The loop of strconv.ParseUint from position i on, with acc the value of s[..i]. */
  function Scan(s: string, i: nat, acc: u64): Result<u64, NumError>
    requires i <= |s|
    decreases |s| - i
  {
    if i == |s| then Ok(acc)
    else if !IsDigit(s[i]) then Err(InvalidSyntax)
    else if acc * 10 + DigitOf(s[i]) >= U64_LIMIT then Err(OutOfRange)
    else Scan(s, i + 1, acc * 10 + DigitOf(s[i]))
  }

  /** The text of the error strconv.ParseUint returns (Go's quoting of s is not modelled). */
  function NumErrorMessage(s: string, e: NumError): string {
    "strconv.ParseUint: parsing \"" + s + "\": "
    + (match e case InvalidSyntax => "invalid syntax" case OutOfRange => "value out of range")
  }

  /** fmt.Sprintf("%d", n). */
  function FormatUint(n: nat): string
  {
    if n < 10 then [DigitChar(n)] else FormatUint(n / 10) + [DigitChar(n % 10)]
  }

  /** A prefix of a digit string never denotes more than the whole string. */
  lemma {:induction false} ValuePrefix(s: string, i: nat)
    requires AllDigits(s) && i <= |s|
    ensures AllDigits(s[..i]) && Value(s[..i]) <= Value(s)
    decreases |s| - i
  {
    if i < |s| {
      ValuePrefix(s, i + 1);
      assert s[..i + 1][..i] == s[..i];
      assert Value(s[..i + 1]) == Value(s[..i]) * 10 + DigitOf(s[i]);
    } else {
      assert s[..i] == s;
    }
  }

  lemma {:induction false} ScanMeansValue(s: string, i: nat, acc: u64)
    requires i <= |s| && AllDigits(s[..i]) && acc == Value(s[..i])
    ensures Scan(s, i, acc).Ok? <==> AllDigits(s) && Value(s) < U64_LIMIT
    ensures Scan(s, i, acc).Ok? ==> Scan(s, i, acc).value == Value(s)
    decreases |s| - i
  {
    if i == |s| {
      assert s[..i] == s;
    } else {
      assert s[..i + 1][..i] == s[..i];
      if !IsDigit(s[i]) {
        assert !AllDigits(s);
      } else if acc * 10 + DigitOf(s[i]) >= U64_LIMIT {
        assert Value(s[..i + 1]) == acc * 10 + DigitOf(s[i]);
        if AllDigits(s) {
          ValuePrefix(s, i + 1);
        }
      } else {
        assert Value(s[..i + 1]) == acc * 10 + DigitOf(s[i]);
        ScanMeansValue(s, i + 1, acc * 10 + DigitOf(s[i]));
      }
    }
  }

  /** strconv.ParseUint accepts exactly the decimal strings, and returns the number they denote. */
  lemma ParseUintMeansValue(s: string)
    ensures ParseUint(s).Ok? <==> IsDecimal(s)
    ensures ParseUint(s).Ok? ==> ParseUint(s).value == Value(s)
  {
    if s != [] {
      assert s[..0] == [];
      ScanMeansValue(s, 0, 0);
    }
  }

  /** What fmt.Sprintf("%d") writes is canonical decimal text for the same number. */
  lemma {:induction false} FormatIsCanonical(n: nat)
    ensures AllDigits(FormatUint(n)) && Value(FormatUint(n)) == n
    ensures FormatUint(n) != [] && (FormatUint(n)[0] != '0' || |FormatUint(n)| == 1)
  {
    if n >= 10 {
      FormatIsCanonical(n / 10);
      var s := FormatUint(n);
      assert s[..|s| - 1] == FormatUint(n / 10);
      assert s[0] == FormatUint(n / 10)[0];
    }
  }

  /** Round trip: reading back what was written gives the number that was written. */
  lemma FormatThenParse(n: u64)
    ensures IsCanonical(FormatUint(n))
    ensures ParseUint(FormatUint(n)) == Ok(n)
  {
    FormatIsCanonical(n);
    ParseUintMeansValue(FormatUint(n));
  }

  /** Round trip the other way: a canonical decimal is exactly what writing its value gives. */
  lemma {:induction false} ParseThenFormat(s: string)
    requires IsCanonical(s)
    ensures ParseUint(s).Ok? && FormatUint(ParseUint(s).value) == s
  {
    ParseUintMeansValue(s);
    CanonicalFormats(s);
  }

  lemma {:induction false} CanonicalFormats(s: string)
    requires s != [] && AllDigits(s) && (s[0] != '0' || |s| == 1)
    ensures FormatUint(Value(s)) == s
    decreases |s|
  {
    var p := s[..|s| - 1];
    var d := DigitOf(s[|s| - 1]);
    if |s| == 1 {
      assert Value(s) == d;
      assert [DigitChar(d)] == s;
    } else {
      assert p[0] == s[0];
      assert AllDigits(p);
      assert p[..1] == [s[0]];
      ValuePrefix(p, 1);
      assert Value(p[..1]) == DigitOf(s[0]) by { assert [s[0]][..0] == []; }
      assert Value(p) >= 1;
      CanonicalFormats(p);
      assert Value(s) == Value(p) * 10 + d;
      assert Value(s) / 10 == Value(p) && Value(s) % 10 == d;
      assert DigitChar(d) == s[|s| - 1];
      assert p + [s[|s| - 1]] == s;
    }
  }

  /** Writing is injective on uint64: two numbers with the same text are equal. */
  lemma FormatInjective(m: u64, n: u64)
    requires FormatUint(m) == FormatUint(n)
    ensures m == n
  {
    FormatThenParse(m);
    FormatThenParse(n);
  }
}
