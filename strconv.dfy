/** Go's `strconv.Atoi` as the orientation dispatch uses it: an optional sign, then
    decimal digits, producing a 64-bit `int`; anything else is a `*NumError`. */
module Strconv {
  import opened Wrappers
  import opened GoInt

  /** `strconv.ErrSyntax` and `strconv.ErrRange`. */
  datatype NumCause = ErrSyntax | ErrRange

  /** `*strconv.NumError{Func, Num, Err}`. */
  datatype NumError = NumError(func: string, num: string, cause: NumCause)

  predicate IsDigit(c: char)
  {
    '0' <= c <= '9'
  }

  predicate AllDigits(s: string)
  {
    forall i :: 0 <= i < |s| ==> IsDigit(s[i])
  }

  function DigitValue(c: char): nat
    requires IsDigit(c)
  {
    c as int - '0' as int
  }

  /** The decimal value of the digits `s` read after an already accumulated `acc`. */
  function DecimalFrom(acc: nat, s: string): nat
    requires AllDigits(s)
    decreases s
  {
    if s == [] then acc else DecimalFrom(acc * 10 + DigitValue(s[0]), s[1..])
  }

  function Decimal(s: string): nat
    requires AllDigits(s)
  {
    DecimalFrom(0, s)
  }

  /** The digit loop of `ParseUint(s, 10, 64)`: left to right, a non-digit is a syntax
      error, and the first step whose value would exceed the largest `uint64` is a range
      error, reported at once even when later characters are not digits. */
  function ScanDigits(acc: nat, s: string): Result<nat, NumCause>
    requires acc <= MaxUint64
    decreases s
  {
    if s == [] then Success(acc)
    else if !IsDigit(s[0]) then Failure(ErrSyntax)
    else if acc * 10 + DigitValue(s[0]) > MaxUint64 then Failure(ErrRange)
    else ScanDigits(acc * 10 + DigitValue(s[0]), s[1..])
  }

  /** `strconv.Atoi(s)` with Go's 64-bit `int`. */
  function Atoi(s: string): (r: Result<int, NumError>)
    ensures r.Success? ==> -TwoTo63 <= r.value <= MaxInt64
    ensures r.Failure? ==> r.error.func == "Atoi" && r.error.num == s
  {
    if s == [] then Failure(NumError("Atoi", s, ErrSyntax))
    else
      var neg := s[0] == '-';
      var body := if s[0] == '-' || s[0] == '+' then s[1..] else s;
      if body == [] then Failure(NumError("Atoi", s, ErrSyntax))
      else match ScanDigits(0, body)
        case Failure(c) => Failure(NumError("Atoi", s, c))
        case Success(u) =>
          if !neg && u > MaxInt64 then Failure(NumError("Atoi", s, ErrRange))
          else if neg && u > TwoTo63 then Failure(NumError("Atoi", s, ErrRange))
          else Success(if neg then -(u as int) else u)
  }

  /** What Atoi accepts: an optional sign and at least one digit. */
  predicate WellFormed(s: string)
  {
    var body := if |s| > 0 && (s[0] == '-' || s[0] == '+') then s[1..] else s;
    body != [] && AllDigits(body)
  }

  /** The signed value a well-formed string denotes. */
  function Denoted(s: string): int
    requires WellFormed(s)
  {
    var body := if s[0] == '-' || s[0] == '+' then s[1..] else s;
    if s[0] == '-' then -(Decimal(body) as int) else Decimal(body)
  }

  lemma {:induction false} DecimalFromGrows(acc: nat, s: string)
    requires AllDigits(s)
    ensures DecimalFrom(acc, s) >= acc
    decreases s
  {
    if s != [] {
      DecimalFromGrows(acc * 10 + DigitValue(s[0]), s[1..]);
    }
  }

  /** Without overflow the scan computes the decimal value. */
  lemma {:induction false} ScanDigitsValue(acc: nat, s: string)
    requires acc <= MaxUint64 && AllDigits(s) && DecimalFrom(acc, s) <= MaxUint64
    ensures ScanDigits(acc, s) == Success(DecimalFrom(acc, s))
    decreases s
  {
    if s != [] {
      var next := acc * 10 + DigitValue(s[0]);
      DecimalFromGrows(next, s[1..]);
      ScanDigitsValue(next, s[1..]);
    }
  }

  /** A successful scan saw only digits, and its value is their decimal value. */
  lemma {:induction false} ScanDigitsSound(acc: nat, s: string)
    requires acc <= MaxUint64 && ScanDigits(acc, s).Success?
    ensures AllDigits(s) && ScanDigits(acc, s).value == DecimalFrom(acc, s)
    decreases s
  {
    if s != [] {
      ScanDigitsSound(acc * 10 + DigitValue(s[0]), s[1..]);
    }
  }

  /** Atoi succeeds exactly on well-formed strings whose value fits a 64-bit `int`,
      and then returns that value. */
  lemma AtoiSuccessIff(s: string)
    ensures Atoi(s).Success? <==> WellFormed(s) && -TwoTo63 <= Denoted(s) <= MaxInt64
    ensures Atoi(s).Success? ==> Atoi(s).value == Denoted(s)
  {
    if s != [] {
      var body := if s[0] == '-' || s[0] == '+' then s[1..] else s;
      if body != [] {
        if ScanDigits(0, body).Success? {
          ScanDigitsSound(0, body);
        } else if AllDigits(body) && Decimal(body) <= MaxUint64 {
          ScanDigitsValue(0, body);
        }
      }
    }
  }

  /** Every failure names Atoi and carries the whole input. */
  lemma AtoiErrorCarriesInput(s: string)
    requires Atoi(s).Failure?
    ensures Atoi(s).error.func == "Atoi" && Atoi(s).error.num == s
  {
  }

  /** The empty string (a missing map key reads as "") and the one-rune string U+0001
      are syntax errors. */
  lemma AtoiRejectsEmptyAndControl()
    ensures Atoi("") == Failure(NumError("Atoi", "", ErrSyntax))
    ensures Atoi([1 as char]) == Failure(NumError("Atoi", [1 as char], ErrSyntax))
  {
  }

  /** One decimal digit, with or without a sign, parses to its value. */
  lemma AtoiOneDigit(c: char)
    requires IsDigit(c)
    ensures Atoi([c]) == Success(DigitValue(c))
    ensures Atoi(['+', c]) == Success(DigitValue(c))
    ensures Atoi(['-', c]) == Success(-(DigitValue(c) as int))
  {
    assert c != '-' && c != '+' && [c][1..] == [];
    assert ScanDigits(0, [c]) == ScanDigits(DigitValue(c), []);
    assert ['+', c][1..] == [c];
    assert ['-', c][1..] == [c];
  }
}
