/**
  Decimal integers as Go's strconv and fmt handle them on a 64-bit host:
  `strconv.Atoi` (which the create handler applies to a textual port) and the
  `%d` verb (which renders the port into the generated configuration files).
 */
module Decimal {
  import opened Results

  const MaxUint64: int := 0xFFFF_FFFF_FFFF_FFFF
  const MaxInt64: int := 0x7FFF_FFFF_FFFF_FFFF
  const MinInt64: int := -0x8000_0000_0000_0000

  /** Go's `int` on the 64-bit hosts the service is deployed to. */
  type Int64 = i: int | MinInt64 <= i <= MaxInt64

  /** The two failures strconv reports. */
  datatype NumError = ErrSyntax | ErrRange

  predicate IsDigit(c: char) { '0' <= c <= '9' }

  function DigitValue(c: char): nat
    requires IsDigit(c)
  {
    c as int - '0' as int
  }

  function DigitChar(d: nat): (c: char)
    requires d < 10
    ensures IsDigit(c) && DigitValue(c) == d
  {
    ('0' as int + d) as char
  }

  predicate AllDigits(s: string) {
    forall i :: 0 <= i < |s| ==> IsDigit(s[i])
  }

  /** The number a digit string denotes, most significant digit first. */
  function ValueOf(s: string): nat
    requires AllDigits(s)
  {
    if s == [] then 0 else 10 * ValueOf(s[..|s| - 1]) + DigitValue(s[|s| - 1])
  }

  /** The text after an optional leading sign. */
  function Unsigned(s: string): string {
    if s != [] && (s[0] == '+' || s[0] == '-') then s[1..] else s
  }

  predicate Negative(s: string) { s != [] && s[0] == '-' }

  /** An optional sign followed by at least one decimal digit. */
  predicate WellFormed(s: string) {
    Unsigned(s) != [] && AllDigits(Unsigned(s))
  }

  function SignedValue(s: string): int
    requires WellFormed(s)
  {
    if Negative(s) then -(ValueOf(Unsigned(s)) as int) else ValueOf(Unsigned(s))
  }

  /** A longer digit string never denotes less than any of its prefixes. */
  lemma {:induction false} PrefixValueBounded(s: string, j: nat)
    requires AllDigits(s) && j <= |s|
    ensures ValueOf(s[..j]) <= ValueOf(s)
    decreases |s|
  {
    if j < |s| {
      var t := s[..|s| - 1];
      assert t[..j] == s[..j];
      PrefixValueBounded(t, j);
    } else {
      assert s[..j] == s;
    }
  }

  /** Smallest accumulator whose product by ten exceeds the unsigned 64-bit range. */
  const Cutoff: int := MaxUint64 / 10 + 1

  /**
    The digit loop of ParseUint in base 10 with a 64-bit result: `n` holds the
    value of the digits consumed so far. The first non-digit is a syntax error;
    an accumulator that would leave the unsigned 64-bit range is a range error,
    reported as soon as it happens (so before any later non-digit). Go detects
    the second overflow by wrap-around (`n1 < n`); on unbounded integers that
    is the comparison with MaxUint64.
   */
  function ScanDigits(s: string, i: nat, n: nat): (r: Result<nat, NumError>)
    requires i <= |s|
    requires AllDigits(s[..i]) && n == ValueOf(s[..i]) && n <= MaxUint64
    ensures r.Ok? <==> AllDigits(s) && ValueOf(s) <= MaxUint64
    ensures r.Ok? ==> r.value == ValueOf(s)
    ensures AllDigits(s) && r.Err? ==> r.error == ErrRange
    decreases |s| - i
  {
    if i == |s| then
      assert s[..i] == s;
      Ok(n)
    else if !IsDigit(s[i]) then
      Err(ErrSyntax)
    else
      var n1 := n * 10 + DigitValue(s[i]);
      assert s[..i + 1][..i] == s[..i];
      assert AllDigits(s[..i + 1]) && ValueOf(s[..i + 1]) == n1;
      if n >= Cutoff || n1 > MaxUint64 then
        assert AllDigits(s) ==> ValueOf(s) >= n1 by {
          if AllDigits(s) { PrefixValueBounded(s, i + 1); }
        }
        Err(ErrRange)
      else
        ScanDigits(s, i + 1, n1)
  }

  /** strconv.ParseUint(s, 10, 64). */
  function ParseUint(s: string): (r: Result<nat, NumError>)
    ensures r.Ok? <==> s != [] && AllDigits(s) && ValueOf(s) <= MaxUint64
    ensures r.Ok? ==> r.value == ValueOf(s)
    ensures s != [] && AllDigits(s) && r.Err? ==> r.error == ErrRange
  {
    if s == [] then Err(ErrSyntax)
    else
      assert s[..0] == [];
      ScanDigits(s, 0, 0)
  }

  /**
    strconv.Atoi on a 64-bit host. Go's Atoi takes a fast path for inputs
    shorter than 19 bytes and otherwise calls ParseInt(s, 10, 0); the fast path
    accepts, rejects and evaluates exactly as ParseInt does on such short
    inputs (at most 18 digits cannot overflow), so the ParseInt algorithm is
    modelled for every input: strip one sign, parse the rest as unsigned, then
    check the signed 64-bit range (the negative side reaches one further).
   */
  function Atoi(s: string): (r: Result<int, NumError>)
    ensures r.Ok? <==> WellFormed(s) && MinInt64 <= SignedValue(s) <= MaxInt64
    ensures r.Ok? ==> r.value == SignedValue(s)
    ensures WellFormed(s) && r.Err? ==> r.error == ErrRange
    ensures s == [] || Unsigned(s) == [] ==> r == Err(ErrSyntax)
  {
    if s == [] then Err(ErrSyntax)
    else
      var neg := s[0] == '-';
      match ParseUint(Unsigned(s))
      case Err(e) => Err(e)
      case Ok(un) =>
        if !neg && un >= MaxInt64 + 1 then Err(ErrRange)
        else if neg && un > MaxInt64 + 1 then Err(ErrRange)
        else Ok(if neg then -(un as int) else un)
  }

  /** The decimal digits of a natural number, without leading zeros. */
  function Digits(n: nat): (s: string)
    ensures s != [] && AllDigits(s) && ValueOf(s) == n
    ensures s[0] == '0' ==> n == 0
    ensures |s| > 1 ==> s[0] != '0'
    decreases n
  {
    if n < 10 then [DigitChar(n)]
    else
      var prefix := Digits(n / 10);
      var s := prefix + [DigitChar(n % 10)];
      assert s[..|s| - 1] == prefix;
      s
  }

  /** Go's `%d` verb (strconv.FormatInt in base 10): a minus sign for negatives. */
  function FormatInt(n: int): (s: string)
    ensures WellFormed(s) && SignedValue(s) == n
    ensures Negative(s) <==> n < 0
    ensures s[0] != '+'
    ensures |Unsigned(s)| > 1 ==> Unsigned(s)[0] != '0'
  {
    if n < 0 then
      var s := "-" + Digits(-n);
      assert Unsigned(s) == Digits(-n);
      s
    else
      Digits(n)
  }

  /** Rendering any Go int with `%d` and reading it back with Atoi gives the same int. */
  lemma AtoiInvertsFormatInt(n: Int64)
    ensures Atoi(FormatInt(n)) == Ok(n)
  {
  }

  /** Distinct integers render to distinct text. */
  lemma FormatIntInjective(a: int, b: int)
    requires FormatInt(a) == FormatInt(b)
    ensures a == b
  {
  }
}
