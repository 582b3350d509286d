/**
 * The part of Go's `strconv` the core relies on: `ParseInt(s, 10, 64)` (used by
 * `ConvertToInt64`) and `Atoi` (used by `GetEnvAsInt` and `PaginateQueryExtractor`).
 * On a 64-bit platform `Atoi(s)` gives the same value and the same kind of
 * error as `ParseInt(s, 10, 64)`, so both are `ParseInt64` here. `FormatInt`
 * (`strconv.Itoa`) is its inverse.
 */
module Strconv {
  import opened Wrappers
  import opened GoInt

  datatype NumError = ErrSyntax | ErrRange

  /** The `(value, error)` pair `ParseInt` returns; on an error the value is 0 or the clamped bound. */
  datatype Parsed = Parsed(value: int, err: Option<NumError>)

  predicate IsDigit(c: char) { '0' <= c <= '9' }

  function DigitValue(c: char): (d: nat)
    requires IsDigit(c)
    ensures d < 10
  {
    (c as int) - ('0' as int)
  }

  function DigitChar(d: nat): (c: char)
    requires d < 10
    ensures IsDigit(c) && DigitValue(c) == d
  {
    (('0' as int) + d) as char
  }

  predicate AllDigits(s: string) { forall i :: 0 <= i < |s| ==> IsDigit(s[i]) }

  /** The number a digit string denotes, read left to right onto the accumulator `n`. */
  function ValueFrom(n: nat, s: string): nat
    requires AllDigits(s)
    decreases |s|
  {
    if s == [] then n else ValueFrom(n * 10 + DigitValue(s[0]), s[1..])
  }

  function DecimalValue(s: string): nat
    requires AllDigits(s)
  {
    ValueFrom(0, s)
  }

  predicate HasSign(s: string) { |s| > 0 && (s[0] == '+' || s[0] == '-') }

  function Magnitude(s: string): string { if HasSign(s) then s[1..] else s }

  /** An optional sign followed by at least one decimal digit: what base-10 `ParseInt` accepts. */
  predicate IsDecimal(s: string) { |Magnitude(s)| > 0 && AllDigits(Magnitude(s)) }

  function SignedValue(s: string): int
    requires IsDecimal(s)
  {
    var v: int := DecimalValue(Magnitude(s));
    if s[0] == '-' then -v else v
  }

  /** `n*10` overflows `uint64` from this accumulator on (`maxUint64/10 + 1`). */
  const UintCutoff: int := MaxUint64 / 10 + 1

  /** The digit loop of `ParseUint` for base 10, checks in the order Go makes them. */
  function ScanDigits(n: nat, s: string): (r: Parsed)
    requires n <= MaxUint64
    ensures 0 <= r.value <= MaxUint64
    ensures r.err == Some(ErrSyntax) ==> r.value == 0
    ensures r.err == Some(ErrRange) ==> r.value == MaxUint64
    decreases |s|
  {
    if s == [] then Parsed(n, None)
    else if !IsDigit(s[0]) then Parsed(0, Some(ErrSyntax))
    else if n >= UintCutoff then Parsed(MaxUint64, Some(ErrRange))
    else
      var n1 := n * 10 + DigitValue(s[0]);
      if n1 > MaxUint64 then Parsed(MaxUint64, Some(ErrRange))
      else ScanDigits(n1, s[1..])
  }

  /** `strconv.ParseUint(s, 10, 64)` */
  function ParseUint64(s: string): (r: Parsed)
    ensures r.err == None ==> 0 <= r.value <= MaxUint64
    ensures r.err == Some(ErrSyntax) ==> r.value == 0
    ensures r.err == Some(ErrRange) ==> r.value == MaxUint64
  {
    if s == [] then Parsed(0, Some(ErrSyntax)) else ScanDigits(0, s)
  }

  /** `strconv.ParseInt(s, 10, 64)`, and `strconv.Atoi(s)` on a 64-bit platform. */
  function ParseInt64(s: string): (r: Parsed)
    ensures InInt64(r.value)
  {
    if s == [] then Parsed(0, Some(ErrSyntax))
    else
      var neg := s[0] == '-';
      var u := ParseUint64(Magnitude(s));
      if u.err == Some(ErrSyntax) then Parsed(0, u.err)
      else if !neg && u.value >= TwoTo63 then Parsed(MaxInt64, Some(ErrRange))
      else if neg && u.value > TwoTo63 then Parsed(MinInt64, Some(ErrRange))
      else Parsed(if neg then -u.value else u.value, None)
  }

  /** `strconv.Itoa` / `FormatInt(n, 10)` */
  function FormatInt(n: int): string
  {
    if n < 0 then "-" + Digits(-n) else Digits(n)
  }

  /** The shortest decimal digit string of `m`. */
  function Digits(m: nat): (s: string)
    ensures |s| > 0 && AllDigits(s)
  {
    if m < 10 then [DigitChar(m)] else Digits(m / 10) + [DigitChar(m % 10)]
  }

  // ---------------------------------------------------------------- lemmas

  lemma {:induction false} ValueFromAtLeast(n: nat, s: string)
    requires AllDigits(s)
    ensures ValueFrom(n, s) >= n
    ensures |s| > 0 ==> ValueFrom(n, s) >= n * 10 + DigitValue(s[0])
    decreases |s|
  {
    if s != [] {
      ValueFromAtLeast(n * 10 + DigitValue(s[0]), s[1..]);
    }
  }

  /** On a digit string the scan yields its value, or a range error exactly when it exceeds `uint64`. */
  lemma {:induction false} ScanDigitsCorrect(n: nat, s: string)
    requires n <= MaxUint64
    ensures AllDigits(s) && ValueFrom(n, s) <= MaxUint64 ==> ScanDigits(n, s) == Parsed(ValueFrom(n, s), None)
    ensures AllDigits(s) && ValueFrom(n, s) > MaxUint64 ==> ScanDigits(n, s) == Parsed(MaxUint64, Some(ErrRange))
    ensures !AllDigits(s) ==> ScanDigits(n, s).err.Some?
    decreases |s|
  {
    if s == [] {
    } else if !IsDigit(s[0]) {
    } else {
      var n1 := n * 10 + DigitValue(s[0]);
      assert AllDigits(s) ==> AllDigits(s[1..]);
      assert !AllDigits(s) ==> !AllDigits(s[1..]) by {
        if !AllDigits(s) {
          var i :| 0 <= i < |s| && !IsDigit(s[i]);
          assert i > 0 && !IsDigit(s[1..][i - 1]);
        }
      }
      if AllDigits(s) {
        ValueFromAtLeast(n, s);
        ValueFromAtLeast(n1, s[1..]);
      }
      if n < UintCutoff && n1 <= MaxUint64 {
        ScanDigitsCorrect(n1, s[1..]);
      }
    }
  }

  /**
   * `ParseInt64` succeeds exactly on decimal strings whose value fits `int64`,
   * and then yields that value; an out-of-range decimal is clamped with a range error.
   */
  lemma ParseInt64Correct(s: string)
    ensures ParseInt64(s).err == None <==> IsDecimal(s) && InInt64(SignedValue(s))
    ensures ParseInt64(s).err == None ==> ParseInt64(s).value == SignedValue(s)
    ensures IsDecimal(s) && SignedValue(s) > MaxInt64 ==> ParseInt64(s) == Parsed(MaxInt64, Some(ErrRange))
    ensures IsDecimal(s) && SignedValue(s) < MinInt64 ==> ParseInt64(s) == Parsed(MinInt64, Some(ErrRange))
  {
    if s != [] {
      var m := Magnitude(s);
      if m != [] {
        ScanDigitsCorrect(0, m);
        assert ParseUint64(m) == ScanDigits(0, m);
        if AllDigits(m) {
          var v := DecimalValue(m);
          if v <= MaxUint64 {
            assert ParseUint64(m) == Parsed(v, None);
          } else {
            assert ParseUint64(m) == Parsed(MaxUint64, Some(ErrRange));
          }
          assert SignedValue(s) == if s[0] == '-' then -v else v;
        } else {
          var u := ParseUint64(m);
          assert u.err.Some?;
          assert u.err.value.ErrSyntax? || u.err.value.ErrRange?;
          assert u.err == Some(ErrSyntax) || u.err == Some(ErrRange);
          assert u.err == Some(ErrRange) ==> u.value == MaxUint64 > TwoTo63;
          assert !IsDecimal(s);
          assert ParseInt64(s).err.Some?;
        }
      }
    }
  }

  lemma {:induction false} ValueFromSnoc(n: nat, s: string, c: char)
    requires AllDigits(s) && IsDigit(c)
    ensures AllDigits(s + [c])
    ensures ValueFrom(n, s + [c]) == ValueFrom(n, s) * 10 + DigitValue(c)
    decreases |s|
  {
    if s == [] {
      assert [c][1..] == [];
    } else {
      assert (s + [c])[1..] == s[1..] + [c];
      ValueFromSnoc(n * 10 + DigitValue(s[0]), s[1..], c);
    }
  }

  lemma {:induction false} DigitsValue(m: nat)
    ensures DecimalValue(Digits(m)) == m
  {
    if m < 10 {
      var c := DigitChar(m);
      assert [c][1..] == [];
      assert ValueFrom(0, [c]) == ValueFrom(DigitValue(c), [c][1..]);
    } else {
      DigitsValue(m / 10);
      ValueFromSnoc(0, Digits(m / 10), DigitChar(m % 10));
    }
  }

  /** Round trip: parsing `strconv.Itoa(n)` gives back `n` for every `int64`. */
  lemma ParseFormatRoundTrip(n: Int64)
    ensures ParseInt64(FormatInt(n)) == Parsed(n, None)
  {
    var s := FormatInt(n);
    var a: int := n;
    if a < 0 {
      DigitsValue(-a);
      assert Magnitude(s) == Digits(-a);
    } else {
      DigitsValue(n);
      assert Magnitude(s) == Digits(n);
    }
    ParseInt64Correct(s);
  }
}
