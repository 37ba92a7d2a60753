/**
 * Fixed-width integers of the Rust source as bounded mathematical integers, and the
 * decimal text conversions of the Rust standard library (`u32::from_str`, `to_string`)
 * that the camera index and the command-line parsers rely on.
 */
module Numeric {
  import opened Wrappers

  const U8_LIMIT: int := 0x100
  const U32_LIMIT: int := 0x1_0000_0000
  const I32_MAX: int := 0x7fff_ffff
  const I64_MIN: int := -0x8000_0000_0000_0000
  const I64_MAX: int := 0x7fff_ffff_ffff_ffff
  const U64_LIMIT: int := 0x1_0000_0000_0000_0000

  const U128_LIMIT: int := 0x1_0000_0000_0000_0000_0000_0000_0000_0000

  type u8 = x: int | 0 <= x < U8_LIMIT
  type u32 = x: int | 0 <= x < U32_LIMIT
  type u64 = x: int | 0 <= x < U64_LIMIT
  type u128 = x: int | 0 <= x < U128_LIMIT

  /** `core::cmp::Ordering`. */
  datatype Ordering = Less | Equal | Greater

  /** `Ord::cmp` on integers. */
  function Compare(a: int, b: int): (o: Ordering)
    ensures o == Less <==> a < b
    ensures o == Equal <==> a == b
    ensures o == Greater <==> a > b
  {
    if a < b then Less else if a == b then Equal else Greater
  }

  /** `x.clamp(lo, hi)` for `lo <= hi`. */
  function Clamp(x: int, lo: int, hi: int): (r: int)
    requires lo <= hi
    ensures lo <= r <= hi
    ensures lo <= x <= hi ==> r == x
    ensures x < lo ==> r == lo
    ensures x > hi ==> r == hi
  {
    if x < lo then lo else if x > hi then hi else x
  }

  /** Rust's `ParseIntError` kinds that an unsigned decimal parse can produce. */
  datatype IntErrorKind = Empty | InvalidDigit | PosOverflow

  /** The `Display` text of a `ParseIntError`. */
  function IntErrorMessage(k: IntErrorKind): string
  {
    match k
    case Empty => "cannot parse integer from empty string"
    case InvalidDigit => "invalid digit found in string"
    case PosOverflow => "number too large to fit in target type"
  }

  predicate IsDigit(c: char) { '0' <= c <= '9' }

  function DigitValue(c: char): nat
    requires IsDigit(c)
  {
    (c as int) - ('0' as int)
  }

  function DigitChar(d: nat): (c: char)
    requires d < 10
    ensures IsDigit(c) && DigitValue(c) == d
  {
    (('0' as int) + d) as char
  }

  predicate AllDigits(s: string) { forall i :: 0 <= i < |s| ==> IsDigit(s[i]) }

  /** The number a string of decimal digits denotes, most significant digit first. */
  function DecimalValue(s: string): nat
    requires AllDigits(s)
  {
    if s == [] then 0 else DecimalValue(s[..|s| - 1]) * 10 + DigitValue(s[|s| - 1])
  }

  /** `n.to_string()`: decimal digits without leading zeros, "0" for zero. */
  function NatToString(n: nat): string
  {
    if n < 10 then [DigitChar(n)] else NatToString(n / 10) + [DigitChar(n % 10)]
  }

  lemma {:induction false} NatToStringDigits(n: nat)
    ensures var s := NatToString(n); |s| > 0 && AllDigits(s) && DecimalValue(s) == n
  {
    if n >= 10 {
      NatToStringDigits(n / 10);
      var s := NatToString(n);
      assert s[..|s| - 1] == NatToString(n / 10);
    }
  }

  /** Dividing by a positive number does not increase a natural number. */
  lemma DivAtMost(a: nat, b: nat)
    requires b >= 1
    ensures a / b <= a
  {
  }

  /** `n.to_string()` for a signed integer: a minus sign before the digits of a negative value. */
  function IntToString(n: int): (s: string)
    ensures |s| > 0
    ensures n < 0 <==> s[0] == '-'
  {
    NatToStringDigits(if n < 0 then -n else n);
    if n < 0 then "-" + NatToString(-n) else NatToString(n)
  }

  /** The left-to-right digit scan of `u32::from_str`, stopping at the first bad digit or overflow. */
  function ScanDigits(ds: string, acc: nat): Result<u32, IntErrorKind>
    requires acc < U32_LIMIT
    decreases |ds|
  {
    if ds == [] then Ok(acc)
    else if !IsDigit(ds[0]) then Err(InvalidDigit)
    else
      var next := acc * 10 + DigitValue(ds[0]);
      if next >= U32_LIMIT then Err(PosOverflow) else ScanDigits(ds[1..], next)
  }

  /** The digits `u32::from_str` scans: an optional leading '+' is dropped. */
  function UnsignedDigits(s: string): string
  {
    if |s| > 0 && s[0] == '+' then s[1..] else s
  }

  /**
   * `s.parse::<u32>()`: an empty string is `Empty`; a lone sign is `InvalidDigit`; otherwise
   * the digits after an optional '+' are scanned left to right.
   */
  function ParseU32(s: string): Result<u32, IntErrorKind>
  {
    if s == [] then Err(Empty)
    else if |s| == 1 && (s[0] == '+' || s[0] == '-') then Err(InvalidDigit)
    else ScanDigits(UnsignedDigits(s), 0)
  }

  function Pow10(k: nat): (p: nat)
    ensures p >= 1
  {
    if k == 0 then 1 else 10 * Pow10(k - 1)
  }

  lemma {:induction false} DecimalValueAppend(s: string, c: char)
    requires AllDigits(s) && IsDigit(c)
    ensures AllDigits(s + [c]) && DecimalValue(s + [c]) == DecimalValue(s) * 10 + DigitValue(c)
  {
    assert (s + [c])[..|s + [c]| - 1] == s;
  }

  lemma {:induction false} DecimalValueCons(c: char, s: string)
    requires AllDigits(s) && IsDigit(c)
    ensures AllDigits([c] + s)
    ensures DecimalValue([c] + s) == DigitValue(c) * Pow10(|s|) + DecimalValue(s)
    decreases |s|
  {
    if s != [] {
      var init := s[..|s| - 1];
      var last := s[|s| - 1];
      assert s == init + [last];
      DecimalValueCons(c, init);
      assert [c] + s == ([c] + init) + [last];
      DecimalValueAppend([c] + init, last);
      DecimalValueAppend(init, last);
      var p := Pow10(|init|);
      assert Pow10(|s|) == 10 * p;
      ShiftLeftDigit(DigitValue(c), p, DecimalValue(init));
    } else {
      assert [c] + s == [c];
      assert [c][..0] == [];
    }
  }

  lemma ShiftLeftDigit(d: nat, p: nat, v: nat)
    ensures (d * p + v) * 10 == d * (10 * p) + v * 10
  {
  }

  /** Scanning digits from accumulator `acc` succeeds exactly when the value never reaches 2^32. */
  lemma {:induction false} ScanDigitsValue(ds: string, acc: nat)
    requires acc < U32_LIMIT && AllDigits(ds)
    ensures var v := acc * Pow10(|ds|) + DecimalValue(ds);
      ScanDigits(ds, acc) == if v < U32_LIMIT then Ok(v) else Err(PosOverflow)
    decreases |ds|
  {
    if ds != [] {
      var c, rest := ds[0], ds[1..];
      assert ds == [c] + rest;
      DecimalValueCons(c, rest);
      var next := acc * 10 + DigitValue(c);
      var p := Pow10(|rest|);
      assert Pow10(|ds|) == 10 * p;
      ShiftDigit(acc, DigitValue(c), p, DecimalValue(rest));
      if next < U32_LIMIT {
        ScanDigitsValue(rest, next);
      } else {
        ShiftDigit(acc, DigitValue(c), p, DecimalValue(rest));
      }
    }
  }

  lemma ShiftDigit(acc: nat, d: nat, p: nat, r: nat)
    requires p >= 1
    ensures acc * (10 * p) + (d * p + r) == (acc * 10 + d) * p + r
    ensures (acc * 10 + d) * p + r >= acc * 10 + d
  {
    assert (acc * 10 + d) * p == acc * 10 * p + d * p;
    assert (acc * 10 + d) * p >= (acc * 10 + d) * 1;
  }

  /**
   * `u32::from_str` accepts exactly an optional '+' followed by one or more decimal digits
   * whose value is below 2^32, and then returns that value.
   */
  lemma ParseU32Ok(s: string)
    ensures ParseU32(s).Ok? <==>
      (var ds := UnsignedDigits(s); |ds| > 0 && AllDigits(ds) && DecimalValue(ds) < U32_LIMIT)
    ensures ParseU32(s).Ok? ==> ParseU32(s).value == DecimalValue(UnsignedDigits(s))
  {
    var ds := UnsignedDigits(s);
    if s != [] && !(|s| == 1 && (s[0] == '+' || s[0] == '-')) {
      if AllDigits(ds) {
        ScanDigitsValue(ds, 0);
      } else {
        ScanDigitsInvalid(ds, 0);
      }
    }
  }

  lemma {:induction false} ScanDigitsInvalid(ds: string, acc: nat)
    requires acc < U32_LIMIT && !AllDigits(ds)
    ensures ScanDigits(ds, acc).Err?
    decreases |ds|
  {
    if IsDigit(ds[0]) {
      var next := acc * 10 + DigitValue(ds[0]);
      if next < U32_LIMIT {
        assert !AllDigits(ds[1..]) by {
          var i :| 0 <= i < |ds| && !IsDigit(ds[i]);
          assert i > 0 && ds[1..][i - 1] == ds[i];
        }
        ScanDigitsInvalid(ds[1..], next);
      }
    }
  }

  /** Round trip: every u32 printed in decimal parses back to itself. */
  lemma ParseNatToString(n: u32)
    ensures ParseU32(NatToString(n)) == Ok(n)
  {
    var s := NatToString(n);
    NatToStringDigits(n);
    assert UnsignedDigits(s) == s;
    ParseU32Ok(s);
  }
  /**
   * Multiplication as repeated addition. Index arithmetic over frame dimensions is stated
   * with it, so that products of two unknowns stay opaque to the solver and the proofs
   * about them stay linear; `MulIsProduct` ties it to `*`.
   */
  function Mul(a: nat, b: nat): nat
  {
    if a == 0 then 0 else Mul(a - 1, b) + b
  }

  lemma {:induction false} MulIsProduct(a: nat, b: nat)
    ensures Mul(a, b) == a * b
  {
    if a > 0 {
      MulIsProduct(a - 1, b);
    }
  }

  lemma MulMono(a: nat, c: nat, b: nat)
    requires a <= c
    ensures Mul(a, b) <= Mul(c, b)
  {
    MulIsProduct(a, b);
    MulIsProduct(c, b);
    assert a * b <= c * b;
  }

  lemma MulSplit(a: nat, c: nat, b: nat)
    ensures Mul(a + c, b) == Mul(a, b) + Mul(c, b)
  {
    MulIsProduct(a, b);
    MulIsProduct(c, b);
    MulIsProduct(a + c, b);
    assert (a + c) * b == a * b + c * b;
  }

  lemma MulTwice(k: nat, b: nat)
    ensures Mul(2 * k, b) == Mul(k, 2 * b) == 2 * Mul(k, b)
  {
    MulIsProduct(2 * k, b);
    MulIsProduct(k, 2 * b);
    MulIsProduct(k, b);
    assert (2 * k) * b == k * (2 * b) == 2 * (k * b);
  }
}
