/** The two conversions the handlers perform between int64 values and their
    base-10 text: `strconv.ParseInt(s, 10, 64)` on the `{todoID}` path
    parameter, and `strconv.FormatInt(id, 10)` (and `fmt`'s `%d`) when an id is
    written into a response or an error message. */
module Strconv {
  import opened Results

  const MaxUint64: int := 0xffff_ffff_ffff_ffff
  const MinInt64: int := -0x8000_0000_0000_0000
  const MaxInt64: int := 0x7fff_ffff_ffff_ffff

  /** The values of Go's int64. */
  predicate IsInt64(x: int) { MinInt64 <= x <= MaxInt64 }

  /** The two failures `strconv.ParseInt` reports (`strconv.ErrSyntax`, `strconv.ErrRange`). */
  datatype NumError = ErrSyntax | ErrRange

  predicate IsDigit(c: char) { '0' <= c <= '9' }

  function DigitValue(c: char): (d: nat)
    requires IsDigit(c)
    ensures d < 10
  {
    c as int - '0' as int
  }

  function DigitChar(d: nat): (c: char)
    requires d < 10
    ensures IsDigit(c) && DigitValue(c) == d
  {
    ('0' as int + d) as char
  }

  /** Base-10 text of a natural number: digits only, most significant first,
      no leading zero. */
  function Digits(n: nat): (s: string)
    ensures |s| > 0
    ensures forall i :: 0 <= i < |s| ==> IsDigit(s[i])
    ensures n >= 10 ==> s[0] != '0'
    decreases n
  {
    if n < 10 then [DigitChar(n)] else Digits(n / 10) + [DigitChar(n % 10)]
  }

  /** `strconv.FormatInt(i, 10)`: a minus sign for negative values, then the digits. */
  function FormatInt(i: int): (s: string)
    ensures |s| > 0
    ensures s[0] == '-' <==> i < 0
    ensures i >= 0 ==> s == Digits(i)
    ensures i < 0 ==> s == "-" + Digits(-i)
  {
    if i < 0 then "-" + Digits(-i) else Digits(i)
  }

  /** The digit loop of `strconv.ParseUint(s, 10, 64)`, read left to right
      (the recursion is on the prefix, so the leftmost problem wins): a
      character that is not a decimal digit is a syntax error, a digit that
      takes the value past 2^64-1 a range error. */
  function Accumulate(s: string): (r: Result<nat, NumError>)
    ensures r.Ok? ==> r.value <= MaxUint64
    ensures r.Ok? ==> forall i :: 0 <= i < |s| ==> IsDigit(s[i])
    decreases |s|
  {
    if s == [] then Ok(0)
    else
      match Accumulate(s[..|s| - 1])
      case Err(e) => Err(e)
      case Ok(n) =>
        var c := s[|s| - 1];
        if !IsDigit(c) then Err(ErrSyntax)
        else if n * 10 + DigitValue(c) > MaxUint64 then Err(ErrRange)
        else Ok(n * 10 + DigitValue(c))
  }

  /** `strconv.ParseUint(s, 10, 64)`: the empty string is a syntax error. */
  function ParseUint(s: string): (r: Result<nat, NumError>)
    ensures r.Ok? ==> |s| > 0 && r.value <= MaxUint64
  {
    if s == "" then Err(ErrSyntax) else Accumulate(s)
  }

  /** `strconv.ParseInt(s, 10, 64)`: an optional `+` or `-`, then at least one
      decimal digit, and the value must fit in an int64. A syntax error in the
      digits is reported as such; a magnitude past 2^64-1 or past the int64
      bound of its sign is a range error. */
  function ParseInt(s: string): (r: Result<int, NumError>)
    ensures r.Ok? ==> IsInt64(r.value)
    ensures r.Ok? ==> |s| > 0 && forall i :: 0 < i < |s| ==> IsDigit(s[i])
    ensures r.Ok? ==> IsDigit(s[0]) || s[0] == '+' || s[0] == '-'
  {
    if s == "" then Err(ErrSyntax)
    else
      var neg := s[0] == '-';
      var body := if s[0] == '+' || s[0] == '-' then s[1..] else s;
      match ParseUint(body)
      case Err(ErrSyntax) => Err(ErrSyntax)
      case Err(ErrRange) => Err(ErrRange)
      case Ok(un) =>
        if !neg && un > MaxInt64 then Err(ErrRange)
        else if neg && un > -MinInt64 then Err(ErrRange)
        else
          var v: int := if neg then -(un as int) else un;
          Ok(v)
  }

  /** Reading the digits of n back gives n. */
  lemma {:induction false} AccumulateDigits(n: nat)
    requires n <= MaxUint64
    ensures Accumulate(Digits(n)) == Ok(n)
    decreases n
  {
    var s := Digits(n);
    if n < 10 {
      assert s[..|s| - 1] == [];
    } else {
      assert s[..|s| - 1] == Digits(n / 10);
      AccumulateDigits(n / 10);
    }
  }

  /** FormatInt and ParseInt are inverse on int64: the `userID` a login
      response carries parses back to the id it was made from. */
  lemma ParseFormatRoundTrip(x: int)
    requires IsInt64(x)
    ensures ParseInt(FormatInt(x)) == Ok(x)
  {
    var s := FormatInt(x);
    if x < 0 {
      assert s[1..] == Digits(-x);
      AccumulateDigits(-x);
    } else {
      AccumulateDigits(x);
    }
  }

  /** Different int64 values have different decimal texts. */
  lemma FormatIntInjective(x: int, y: int)
    requires IsInt64(x) && IsInt64(y)
    requires FormatInt(x) == FormatInt(y)
    ensures x == y
  {
    ParseFormatRoundTrip(x);
    ParseFormatRoundTrip(y);
  }

  /** A path parameter with any non-digit after the optional sign is rejected. */
  lemma NonDigitRejected(s: string, i: int)
    requires 0 < i < |s| && !IsDigit(s[i])
    ensures ParseInt(s).Err?
  {
  }

  // ---------------------------------------------------------------- reference meaning

  predicate AllDigits(s: string)
  {
    forall i :: 0 <= i < |s| ==> IsDigit(s[i])
  }

  /** The positional value of a digit string, d0*10^(n-1) + ... + d(n-1),
      with no bound on its size. */
  function DecimalValue(s: string): nat
    requires AllDigits(s)
    decreases |s|
  {
    if s == [] then 0
    else
      var prefix := s[..|s| - 1];
      assert AllDigits(prefix) by {
        forall i | 0 <= i < |prefix| ensures IsDigit(prefix[i]) {
          assert prefix[i] == s[i];
        }
      }
      DecimalValue(prefix) * 10 + DigitValue(s[|s| - 1])
  }

  /** The text after an optional leading sign. */
  function Unsigned(s: string): string
    requires |s| > 0
  {
    if s[0] == '+' || s[0] == '-' then s[1..] else s
  }

  /** Base-10 integer syntax: an optional `+` or `-`, then one or more digits. */
  predicate WellFormed(s: string)
  {
    |s| > 0 && |Unsigned(s)| > 0 && AllDigits(Unsigned(s))
  }

  /** The integer a well-formed text denotes. */
  function SignedValue(s: string): int
    requires WellFormed(s)
  {
    if s[0] == '-' then -(DecimalValue(Unsigned(s)) as int) else DecimalValue(Unsigned(s))
  }

  /** The digit loop computes the positional value, and reports a range error
      exactly when that value passes 2^64-1. */
  lemma {:induction false} AccumulateValue(s: string)
    requires AllDigits(s)
    ensures DecimalValue(s) <= MaxUint64 ==> Accumulate(s) == Ok(DecimalValue(s))
    ensures DecimalValue(s) > MaxUint64 ==> Accumulate(s) == Err(ErrRange)
    decreases |s|
  {
    if s != [] {
      var prefix := s[..|s| - 1];
      assert AllDigits(prefix) by {
        forall i | 0 <= i < |prefix| ensures IsDigit(prefix[i]) {
          assert prefix[i] == s[i];
        }
      }
      AccumulateValue(prefix);
    }
  }

  /** What ParseInt(s, 10, 64) means: it accepts exactly the well-formed texts
      whose value is an int64, and returns that value; a well-formed text out
      of the int64 range is a range error, and any other text is an error. */
  lemma ParseIntMeaning(s: string)
    ensures ParseInt(s).Ok? <==> WellFormed(s) && IsInt64(SignedValue(s))
    ensures ParseInt(s).Ok? ==> ParseInt(s).value == SignedValue(s)
    ensures WellFormed(s) && !IsInt64(SignedValue(s)) ==> ParseInt(s) == Err(ErrRange)
    ensures !WellFormed(s) ==> ParseInt(s).Err?
  {
    if s != "" && Unsigned(s) != "" && AllDigits(Unsigned(s)) {
      AccumulateValue(Unsigned(s));
    }
  }

  /** A decimal numeral denotes the number it was made from. */
  lemma {:induction false} DecimalValueDigits(n: nat)
    ensures DecimalValue(Digits(n)) == n
    decreases n
  {
    var s := Digits(n);
    if n >= 10 {
      assert s[..|s| - 1] == Digits(n / 10);
      DecimalValueDigits(n / 10);
    }
  }

  /** The edges of the int64 range: 2^63 is out of range, -2^63 is in, and a
      magnitude past 2^64-1 is a range error for either sign. */
  lemma ParseIntRangeEdges()
    ensures ParseInt(Digits(MaxInt64 + 1)) == Err(ErrRange)
    ensures ParseInt("-" + Digits(MaxInt64 + 1)) == Ok(MinInt64)
    ensures ParseInt(Digits(MaxUint64 + 1)) == Err(ErrRange)
    ensures ParseInt("-" + Digits(MaxUint64 + 1)) == Err(ErrRange)
  {
    DecimalValueDigits(MaxInt64 + 1);
    DecimalValueDigits(MaxUint64 + 1);
    var a, b := Digits(MaxInt64 + 1), Digits(MaxUint64 + 1);
    assert ("-" + a)[1..] == a;
    assert ("-" + b)[1..] == b;
    ParseIntMeaning(a);
    ParseIntMeaning("-" + a);
    ParseIntMeaning(b);
    ParseIntMeaning("-" + b);
  }

  /** A sign and leading zeros are accepted, a doubled sign is not. */
  lemma ParseIntSignsAndZeros()
    ensures ParseInt("+5") == Ok(5)
    ensures ParseInt("007") == Ok(7)
    ensures ParseInt("-0") == Ok(0)
    ensures ParseInt("+-5") == Err(ErrSyntax)
  {
    assert "+5"[1..] == "5" && "5"[..0] == [];
    assert "007"[..2] == "00" && "00"[..1] == "0" && "0"[..0] == [];
    assert "-0"[1..] == "0";
    assert "+-5"[1..] == "-5" && "-5"[..1] == "-" && "-"[..0] == [];
  }

  /** The empty path parameter and a bare sign are syntax errors. */
  lemma EmptyAndSignOnlyRejected()
    ensures ParseInt("") == Err(ErrSyntax)
    ensures ParseInt("-") == Err(ErrSyntax)
    ensures ParseInt("+") == Err(ErrSyntax)
  {
  }
}
