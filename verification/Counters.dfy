/** Counters kept as decimal strings: strconv.FormatInt and strconv.ParseInt as internal/cache/cache.go uses them. */
module Counters {

  const MAX_INT64: int := 0x7FFF_FFFF_FFFF_FFFF
  const MIN_INT64: int := -0x8000_0000_0000_0000
  const MAX_UINT64: int := 0xFFFF_FFFF_FFFF_FFFF

  predicate IsInt64(n: int) { MIN_INT64 <= n <= MAX_INT64 }

  function Digit(d: int): char
    requires 0 <= d < 10
  {
    '0' + d as char
  }

  function FormatNat(n: nat): string {
    if n < 10 then [Digit(n)] else FormatNat(n / 10) + [Digit(n % 10)]
  }

  function FormatInt(n: int): string {
    if n < 0 then "-" + FormatNat(-n) else FormatNat(n)
  }

  datatype Scan = Value(n: nat) | BadSyntax | OutOfRange

  /** Left to right; an overflow is reported at once, before later characters are looked at. */
  function ScanDigits(s: string, acc: nat): Scan {
    if s == "" then Value(acc)
    else if !('0' <= s[0] <= '9') then BadSyntax
    else
      var next := acc * 10 + (s[0] - '0') as int;
      if next > MAX_UINT64 then OutOfRange else ScanDigits(s[1..], next)
  }

  /** The number ParseInt(s, 10, 64) returns beside its error: 0 for bad syntax, the nearest limit out of range. */
  function ParseInt(s: string): int {
    if s == "" then 0
    else
      var negative := s[0] == '-';
      var digits := if s[0] == '-' || s[0] == '+' then s[1..] else s;
      if digits == "" then 0
      else
        match ScanDigits(digits, 0)
        case BadSyntax => 0
        case OutOfRange => if negative then MIN_INT64 else MAX_INT64
        case Value(n) =>
          if negative then (if n > -MIN_INT64 then MIN_INT64 else 0 - n)
          else (if n > MAX_INT64 then MAX_INT64 else n)
  }

  /** n++ on an int64. */
  function Next(n: int): int { if n == MAX_INT64 then MIN_INT64 else n + 1 }

  lemma {:induction false} ScanFormatted(n: nat, rest: string)
    requires n <= MAX_UINT64
    ensures ScanDigits(FormatNat(n) + rest, 0) == ScanDigits(rest, n)
    ensures FormatNat(n) != "" && '0' <= FormatNat(n)[0] <= '9'
  {
    if n < 10 {
      assert (FormatNat(n) + rest)[1..] == rest;
    } else {
      var last := [Digit(n % 10)];
      ScanFormatted(n / 10, last + rest);
      assert FormatNat(n) + rest == FormatNat(n / 10) + (last + rest);
      assert (last + rest)[1..] == rest;
    }
  }

  /** Every int64 survives being stored as text. */
  lemma CounterRoundTrip(n: int)
    requires IsInt64(n)
    ensures ParseInt(FormatInt(n)) == n
  {
    var size := if n < 0 then -n else n;
    ScanFormatted(size, "");
    assert FormatNat(size) + "" == FormatNat(size);
    if n < 0 {
      assert FormatInt(n)[1..] == FormatNat(size);
    }
  }
}
