/** Rust's fixed-width integers as the code uses them: the value ranges, the
    decimal `str::parse` of `u32`/`u64`/`i64`, the `as` casts (which
    reinterpret modulo 2^N) and `try_into` (which fails out of range). */
module RustInt {
  import opened Wrappers
  import opened Text

  const TWO_32: int := 0x1_0000_0000
  const TWO_64: int := 0x1_0000_0000_0000_0000

  const U32_MAX: int := TWO_32 - 1
  const I32_MIN: int := -TWO_32 / 2
  const I32_MAX: int := TWO_32 / 2 - 1
  const U64_MAX: int := TWO_64 - 1
  const I64_MIN: int := -TWO_64 / 2
  const I64_MAX: int := TWO_64 / 2 - 1

  type u32 = x: int | 0 <= x <= U32_MAX
  type i32 = x: int | I32_MIN <= x <= I32_MAX
  type u64 = x: int | 0 <= x <= U64_MAX
  type i64 = x: int | I64_MIN <= x <= I64_MAX

  /** `core::num::IntErrorKind`, the payload of `ParseIntError`. */
  datatype IntErrorKind = Empty | InvalidDigit | PosOverflow | NegOverflow

  /** The digit loop of `from_str_radix(_, 10)`: characters are consumed left
      to right, the first non-digit is `InvalidDigit`, and the first digit
      that takes the magnitude past `bound` is `overflow`. Defined by peeling
      the last character, which is the same left-to-right scan. */
  function ScanDigits(s: string, bound: nat, overflow: IntErrorKind): (r: Result<nat, IntErrorKind>)
    ensures r.Ok? ==> r.value <= bound
    ensures r.Err? ==> r.error == InvalidDigit || r.error == overflow
    ensures |s| > 0 && !IsDigit(s[0]) ==> r == Err(InvalidDigit)
    decreases |s|
  {
    if |s| == 0 then Ok(0)
    else
      match ScanDigits(s[..|s| - 1], bound, overflow)
      case Err(e) => Err(e)
      case Ok(acc) =>
        var c := s[|s| - 1];
        if !IsDigit(c) then Err(InvalidDigit)
        else if acc * 10 + DigitValue(c) > bound then Err(overflow)
        else Ok(acc * 10 + DigitValue(c))
  }

  /** `str::parse::<uN>()` with `max` the type's largest value: empty input is
      `Empty`, a lone sign is `InvalidDigit`, one leading `+` is allowed, a
      `-` is just an invalid digit. */
  function ParseUnsigned(s: string, max: nat): (r: Result<nat, IntErrorKind>)
    ensures r.Ok? ==> r.value <= max
    ensures |s| == 0 <==> r == Err(Empty)
    ensures |s| > 0 && s[0] == '-' ==> r == Err(InvalidDigit)
  {
    if |s| == 0 then Err(Empty)
    else if (s[0] == '+' || s[0] == '-') && |s| == 1 then Err(InvalidDigit)
    else if s[0] == '+' then ScanDigits(s[1..], max, PosOverflow)
    else ScanDigits(s, max, PosOverflow)
  }

  /** `str::parse::<iN>()` for the range `min..=max`: as the unsigned parse,
      except that a leading `-` negates and a too-large magnitude after it is
      `NegOverflow`. */
  function ParseSigned(s: string, min: int, max: nat): (r: Result<int, IntErrorKind>)
    requires min <= 0
    ensures r.Ok? ==> min <= r.value <= max
    ensures |s| == 0 <==> r == Err(Empty)
  {
    if |s| == 0 then Err(Empty)
    else if (s[0] == '+' || s[0] == '-') && |s| == 1 then Err(InvalidDigit)
    else if s[0] == '-' then
      match ScanDigits(s[1..], -min, NegOverflow)
      case Ok(m) => Ok(-(m as int))
      case Err(e) => Err(e)
    else if s[0] == '+' then
      match ScanDigits(s[1..], max, PosOverflow)
      case Ok(m) => Ok(m)
      case Err(e) => Err(e)
    else
      match ScanDigits(s, max, PosOverflow)
      case Ok(m) => Ok(m)
      case Err(e) => Err(e)
  }

  /** The decimal text of a number is scanned back to that number whenever it
      fits under the bound. */
  lemma {:induction false} ScanDigitsOfNatToString(n: nat, bound: nat, overflow: IntErrorKind)
    requires n <= bound
    ensures ScanDigits(NatToString(n), bound, overflow) == Ok(n)
    decreases n
  {
    var s := NatToString(n);
    if n >= 10 {
      assert s[..|s| - 1] == NatToString(n / 10);
      ScanDigitsOfNatToString(n / 10, bound, overflow);
    }
  }

  /** `x.to_string().parse::<uN>() == Ok(x)` for every `x` in range. */
  lemma ParseUnsignedRoundTrip(n: nat, max: nat)
    requires n <= max
    ensures ParseUnsigned(NatToString(n), max) == Ok(n)
  {
    ScanDigitsOfNatToString(n, max, PosOverflow);
  }

  /** `i64::to_string`: a `-` before the magnitude of a negative number. */
  function IntToString(x: int): (r: string)
    ensures |r| > 0 && IsDigit(r[|r| - 1])
  {
    if x < 0 then "-" + NatToString(-x) else NatToString(x)
  }

  /** `x.to_string().parse::<iN>() == Ok(x)` for every `x` in range. */
  lemma ParseSignedRoundTrip(x: int, min: int, max: nat)
    requires min <= 0 && min <= x <= max
    ensures ParseSigned(IntToString(x), min, max) == Ok(x)
  {
    if x < 0 {
      var s := IntToString(x);
      assert s[1..] == NatToString(-x);
      ScanDigitsOfNatToString(-x, -min, NegOverflow);
    } else {
      ScanDigitsOfNatToString(x, max, PosOverflow);
    }
  }

  /** `x as u64` for a signed 64-bit `x` (and `x as u32` for 32 bits): the
      same bits read as unsigned, i.e. `x` modulo 2^N. */
  function AsUnsigned(x: int, modulus: int): (r: nat)
    requires modulus > 0
    ensures r < modulus
    ensures 0 <= x < modulus ==> r == x
    ensures -modulus <= x < 0 ==> r == x + modulus
  {
    x % modulus
  }

  /** `x as i64` for an unsigned 64-bit `x` (and `x as i32` for 32 bits):
      values from 2^(N-1) upwards read as negative. */
  function AsSigned(x: nat, modulus: int): (r: int)
    requires modulus > 0 && modulus % 2 == 0 && x < modulus
    ensures -modulus / 2 <= r < modulus / 2
    ensures x < modulus / 2 ==> r == x
    ensures x >= modulus / 2 ==> r == x - modulus
  {
    if x < modulus / 2 then x else x - modulus
  }

  function U64FromI64(x: i64): u64 { AsUnsigned(x, TWO_64) }
  function U32FromI32(x: i32): u32 { AsUnsigned(x, TWO_32) }
  function I64FromU64(x: u64): i64 { AsSigned(x, TWO_64) }
  function I32FromU32(x: u32): i32 { AsSigned(x, TWO_32) }

  /** Reinterpreting a signed value as unsigned and back is the identity, and
      so is the other way round: the `as` casts between a signed type and the
      unsigned type of the same width are mutually inverse. */
  lemma CastsInverse64(x: i64, y: u64)
    ensures I64FromU64(U64FromI64(x)) == x
    ensures U64FromI64(I64FromU64(y)) == y
  {
  }

  lemma CastsInverse32(x: i32, y: u32)
    ensures I32FromU32(U32FromI32(x)) == x
    ensures U32FromI32(I32FromU32(y)) == y
  {
  }

  /** `TryFrom<i64> for u64` (and the 32-bit one): fails exactly on negative
      values and keeps every other value unchanged. */
  function TryUnsigned(x: int): (r: Option<nat>)
    ensures r.Some? <==> x >= 0
    ensures r.Some? ==> r.value == x
  {
    if x < 0 then None else Some(x)
  }
}
