/** Go's 64-bit `int`, the `%d` verb of package fmt and `strconv.Atoi`, which the handlers
    use to read page numbers and identifiers and the repositories use to build cache keys
    and SQL placeholders. */
module GoInt {
  import opened Wrappers

  const Two64: int := 0x1_0000_0000_0000_0000
  const MinInt64: int := -0x8000_0000_0000_0000
  const MaxInt64: int := 0x7FFF_FFFF_FFFF_FFFF
  const MaxUint64: int := 0xFFFF_FFFF_FFFF_FFFF

  predicate InInt64(x: int) {
    MinInt64 <= x <= MaxInt64
  }

  /** The value Go's `int` arithmetic produces for the mathematical result `x`:
      two's-complement wrap-around into the int64 range. */
  function Wrap64(x: int): (r: int)
    ensures InInt64(r)
    ensures r % Two64 == x % Two64
    ensures InInt64(x) ==> r == x
  {
    var m := x % Two64;
    if m > MaxInt64 then m - Two64 else m
  }

  // ---------------------------------------------------------------- decimal digits

  predicate IsDigit(c: char) {
    '0' <= c <= '9'
  }

  predicate AllDigits(s: string) {
    forall i :: 0 <= i < |s| ==> IsDigit(s[i])
  }

  function DigitChar(d: int): (c: char)
    requires 0 <= d < 10
    ensures IsDigit(c) && c as int - '0' as int == d
  {
    ('0' as int + d) as char
  }

  function DigitValue(c: char): int
    requires IsDigit(c)
  {
    c as int - '0' as int
  }

  /** The decimal numeral of `n`, most significant digit first, without leading zeros. */
  function Digits(n: nat): (s: string)
    ensures |s| > 0 && AllDigits(s)
    ensures n >= 10 ==> s[0] != '0'
    decreases n
  {
    if n < 10 then [DigitChar(n)] else Digits(n / 10) + [DigitChar(n % 10)]
  }

  /** The value of a digit string read left to right onto `acc`, as strconv's loops do. */
  function Accumulate(s: string, acc: nat): nat
    requires AllDigits(s)
  {
    if s == [] then acc else Accumulate(s[1..], acc * 10 + DigitValue(s[0]))
  }

  lemma {:induction false} AccumulateSnoc(s: string, c: char, acc: nat)
    requires AllDigits(s) && IsDigit(c)
    ensures AllDigits(s + [c])
    ensures Accumulate(s + [c], acc) == Accumulate(s, acc) * 10 + DigitValue(c)
  {
    if s == [] {
      assert s + [c] == [c];
    } else {
      assert (s + [c])[1..] == s[1..] + [c];
      AccumulateSnoc(s[1..], c, acc * 10 + DigitValue(s[0]));
    }
  }

  /** Reading back the numeral `Digits(n)` gives `n`. */
  lemma {:induction false} DigitsValue(n: nat)
    ensures Accumulate(Digits(n), 0) == n
    decreases n
  {
    if n >= 10 {
      DigitsValue(n / 10);
      AccumulateSnoc(Digits(n / 10), DigitChar(n % 10), 0);
    }
  }

  lemma {:induction false} AccumulateGrows(s: string, acc: nat)
    requires AllDigits(s)
    ensures Accumulate(s, acc) >= acc
  {
    if s != [] {
      AccumulateGrows(s[1..], acc * 10 + DigitValue(s[0]));
    }
  }

  // ---------------------------------------------------------------- fmt "%d"

  /** `fmt.Sprintf("%d", n)`: a minus sign for negative values, then the decimal digits. */
  function FormatInt(n: int): string
  {
    if n < 0 then "-" + Digits(-n) else Digits(n)
  }

  /** Distinct integers are printed differently. */
  lemma FormatIntInjective(a: int, b: int)
    requires FormatInt(a) == FormatInt(b)
    ensures a == b
  {
    if a < 0 && b < 0 {
      assert Digits(-a) == FormatInt(a)[1..] == FormatInt(b)[1..] == Digits(-b);
      DigitsValue(-a);
      DigitsValue(-b);
    } else if a >= 0 && b >= 0 {
      DigitsValue(a);
      DigitsValue(b);
    }
  }

  /** A printed integer never contains a colon, so it cannot run into the next
      `:`-separated part of a cache key. */
  lemma FormatIntHasNoColon(n: int)
    ensures ':' !in FormatInt(n)
  {
    var s := FormatInt(n);
    forall i | 0 <= i < |s| ensures s[i] != ':' {
      if n < 0 {
        assert s[i] == '-' || s[i] == Digits(-n)[i - 1];
      }
    }
  }

  // ---------------------------------------------------------------- strconv.Atoi

  datatype NumError = ErrSyntax | ErrRange

  /** The two results of `strconv.Atoi`: the value and the error (None for nil). */
  datatype Parsed = Parsed(value: int, err: Option<NumError>)

  datatype Scan = Scanned(n: nat) | SyntaxFault | RangeFault

  /** The base-10 loop of `strconv.ParseUint`: each byte must be a digit, and the running
      value is checked against the uint64 range before the next byte is looked at, so an
      overflow is reported even when a bad byte follows it. */
  function ScanUint(s: string, acc: nat): Scan
  {
    if s == [] then Scanned(acc)
    else if !IsDigit(s[0]) then SyntaxFault
    else
      var next := acc * 10 + DigitValue(s[0]);
      if next > MaxUint64 then RangeFault else ScanUint(s[1..], next)
  }

  /** A numeral `strconv.Atoi` accepts: an optional sign and at least one digit. */
  predicate IsNumeral(s: string) {
    |s| > 0 &&
    var body := if s[0] == '-' || s[0] == '+' then s[1..] else s;
    |body| > 0 && AllDigits(body)
  }

  /** `strconv.Atoi` on a 64-bit platform. A malformed string gives 0 and a syntax error;
      a value outside int64 gives the nearest bound and a range error. */
  function Atoi(s: string): (r: Parsed)
    ensures InInt64(r.value)
    ensures r.err == Some(ErrSyntax) ==> r.value == 0
    ensures r.err.None? ==> IsNumeral(s)
  {
    if s == [] then Parsed(0, Some(ErrSyntax))
    else
      var neg := s[0] == '-';
      var body := if s[0] == '-' || s[0] == '+' then s[1..] else s;
      if body == [] then Parsed(0, Some(ErrSyntax))
      else
        match ScanUint(body, 0)
        case SyntaxFault => Parsed(0, Some(ErrSyntax))
        case RangeFault => Parsed(if neg then MinInt64 else MaxInt64, Some(ErrRange))
        case Scanned(u) =>
          ScanAllDigits(body, 0);
          if !neg && u > MaxInt64 then Parsed(MaxInt64, Some(ErrRange))
          else if neg && u > -MinInt64 then Parsed(MinInt64, Some(ErrRange))
          else
            var v: int := u;
            Parsed(if neg then -v else v, None)
  }

  lemma {:induction false} ScanAllDigits(s: string, acc: nat)
    ensures ScanUint(s, acc).Scanned? ==> AllDigits(s)
  {
    if s != [] && IsDigit(s[0]) {
      var next := acc * 10 + DigitValue(s[0]);
      if next <= MaxUint64 {
        ScanAllDigits(s[1..], next);
      }
    }
  }

  /** Scanning a digit string whose value fits in uint64 yields that value. */
  lemma {:induction false} ScanDigits(s: string, acc: nat)
    requires AllDigits(s) && Accumulate(s, acc) <= MaxUint64
    ensures ScanUint(s, acc) == Scanned(Accumulate(s, acc))
  {
    if s != [] {
      var next := acc * 10 + DigitValue(s[0]);
      AccumulateGrows(s[1..], next);
      ScanDigits(s[1..], next);
    }
  }

  /** `strconv.Atoi` reads back what `%d` prints, for every int64. */
  lemma AtoiFormatInt(n: int)
    requires InInt64(n)
    ensures Atoi(FormatInt(n)) == Parsed(n, None)
  {
    var m: nat := if n < 0 then -n else n;
    DigitsValue(m);
    ScanDigits(Digits(m), 0);
    if n < 0 {
      assert FormatInt(n)[1..] == Digits(m);
    }
  }

  /** The overflow check runs before later bytes are inspected: once the digits read so
      far exceed the uint64 range, whatever follows them is never looked at. */
  lemma {:induction false} ScanOverflowWins(p: string, q: string, acc: nat)
    requires AllDigits(p) && acc <= MaxUint64 && Accumulate(p, acc) > MaxUint64
    ensures ScanUint(p + q, acc) == RangeFault
  {
    if p == [] {
      assert false;
    } else {
      assert (p + q)[0] == p[0] && (p + q)[1..] == p[1..] + q;
      var next := acc * 10 + DigitValue(p[0]);
      if next <= MaxUint64 {
        ScanOverflowWins(p[1..], q, next);
      }
    }
  }

  /** So a run of digits too large for uint64 followed by anything at all (a letter,
      say) is a range error clamped to the int64 maximum, not a syntax error. */
  lemma AtoiOverflowBeforeBadByte(p: string, q: string)
    requires AllDigits(p) && Accumulate(p, 0) > MaxUint64
    ensures Atoi(p + q) == Parsed(MaxInt64, Some(ErrRange))
  {
    ScanOverflowWins(p, q, 0);
    assert p != [];
    assert (p + q)[0] == p[0];
  }
}
