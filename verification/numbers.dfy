/** Decimal integers as Go's `strconv` and `%d` read and write them:
    `FormatInt` (`%d`, `strconv.Itoa`), `ParseInt64` (`strconv.ParseInt(s,
    10, 64)`, and `strconv.Atoi` on a 64-bit platform), `ParseBool`, and
    the wrap-around of Go's `int64` arithmetic. */
module Numbers {
  import opened Wrappers

  const Int64Min: int := -0x8000_0000_0000_0000
  const Int64Max: int := 0x7FFF_FFFF_FFFF_FFFF
  const Uint64Max: int := 0xFFFF_FFFF_FFFF_FFFF

  predicate IsDigit(c: char) {
    '0' <= c <= '9'
  }

  function DigitValue(c: char): nat
    requires IsDigit(c)
  {
    c as int - '0' as int
  }

  function DigitChar(d: nat): (c: char)
    requires d < 10
    ensures IsDigit(c) && DigitValue(c) == d
  {
    ('0' as int + d) as char
  }

  /** The decimal digits of `n`, most significant first, without leading
      zeros. */
  function FormatNat(n: nat): (r: string)
    ensures |r| > 0 && IsDigit(r[0])
    decreases n
  {
    if n < 10 then [DigitChar(n)] else FormatNat(n / 10) + [DigitChar(n % 10)]
  }

  /** Go's `%d`: a minus sign for negative values, then the digits. */
  function FormatInt(n: int): (r: string)
    ensures |r| > 0
  {
    if n < 0 then "-" + FormatNat(-n) else FormatNat(n)
  }

  /** Why `strconv` refused a number: `ErrSyntax` or `ErrRange`. */
  datatype NumError = Syntax | Range {
    /** The text of the wrapped `strconv` error. */
    function Text(): string {
      match this
      case Syntax => "invalid syntax"
      case Range => "value out of range"
    }
  }

  /** The digit loop of `strconv.ParseUint` in base 10, continuing from
      `acc`: a non-digit is a syntax error, and an overflow of 64 bits is
      a range error the moment it happens, before later runes are seen. */
  function ScanDigits(s: string, acc: nat): (r: Result<nat, NumError>)
    requires acc <= Uint64Max
    ensures r.Ok? ==> r.value <= Uint64Max
    decreases |s|
  {
    if |s| == 0 then Ok(acc)
    else if !IsDigit(s[0]) then Err(Syntax)
    else if acc * 10 + DigitValue(s[0]) > Uint64Max then Err(Range)
    else ScanDigits(s[1..], acc * 10 + DigitValue(s[0]))
  }

  /** `strconv.ParseUint(s, 10, 64)`. */
  function ParseUint64(s: string): (r: Result<nat, NumError>)
    ensures r.Ok? ==> r.value <= Uint64Max
  {
    if |s| == 0 then Err(Syntax) else ScanDigits(s, 0)
  }

  /** `strconv.ParseInt(s, 10, 64)`: an optional sign, then decimal
      digits; values outside the `int64` range are range errors. */
  function ParseInt64(s: string): (r: Result<int, NumError>)
    ensures r.Ok? ==> Int64Min <= r.value <= Int64Max
    ensures |s| == 0 ==> r == Err(Syntax)
  {
    if |s| == 0 then Err(Syntax)
    else
      var neg := s[0] == '-';
      var digits := if s[0] == '+' || s[0] == '-' then s[1..] else s;
      match ParseUint64(digits)
      case Err(e) => Err(e)
      case Ok(u) =>
        if !neg && u > Int64Max then Err(Range)
        else if neg && u > -Int64Min then Err(Range)
        else
          var v: int := if neg then 0 - (u as int) else u as int;
          Ok(v)
  }

  /** Scanning one more digit extends the value by that digit. */
  lemma {:induction false} ScanDigitsSnoc(s: string, c: char, acc: nat, v: nat)
    requires acc <= Uint64Max
    requires ScanDigits(s, acc) == Ok(v)
    requires IsDigit(c) && v * 10 + DigitValue(c) <= Uint64Max
    ensures ScanDigits(s + [c], acc) == Ok(v * 10 + DigitValue(c))
    decreases |s|
  {
    if |s| == 0 {
      assert s + [c] == [c];
      assert v == acc;
    } else {
      var acc' := acc * 10 + DigitValue(s[0]);
      assert (s + [c])[1..] == s[1..] + [c];
      ScanDigitsSnoc(s[1..], c, acc', v);
    }
  }

  /** The digits `FormatNat` writes scan back to the number. */
  lemma {:induction false} ScanFormatNat(n: nat)
    requires n <= Uint64Max
    ensures ScanDigits(FormatNat(n), 0) == Ok(n)
    decreases n
  {
    if n >= 10 {
      ScanFormatNat(n / 10);
      ScanDigitsSnoc(FormatNat(n / 10), DigitChar(n % 10), 0, n / 10);
    }
  }

  /** Round trip: every `int64` printed with `%d` parses back to itself. */
  lemma ParseFormatInt(n: int)
    requires Int64Min <= n <= Int64Max
    ensures ParseInt64(FormatInt(n)) == Ok(n)
  {
    if n < 0 {
      var s := "-" + FormatNat(-n);
      assert s[1..] == FormatNat(-n);
      ScanFormatNat(-n);
    } else {
      ScanFormatNat(n);
    }
  }

  /** `strconv.ParseBool`: the six spellings of each truth value. */
  function ParseBool(s: string): Option<bool> {
    if s in {"1", "t", "T", "TRUE", "true", "True"} then Some(true)
    else if s in {"0", "f", "F", "FALSE", "false", "False"} then Some(false)
    else None
  }

  /** Go's two's-complement `int64` arithmetic: `x` reduced into the
      `int64` range modulo 2^64. */
  function WrapInt64(x: int): (r: int)
    ensures Int64Min <= r <= Int64Max
    ensures (r - x) % 0x1_0000_0000_0000_0000 == 0
    ensures Int64Min <= x <= Int64Max ==> r == x
  {
    (x - Int64Min) % 0x1_0000_0000_0000_0000 + Int64Min
  }
}
