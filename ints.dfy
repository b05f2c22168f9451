/**
 * Fixed-width integer conversions of C++, made explicit.
 * Dafny integers are unbounded; the loader stores JSON numbers into
 * int32_t, uint32_t, uint16_t and uint8_t fields, and a conversion to an
 * unsigned type (or between widths) keeps the value modulo 2^width.
 */
module Ints {

  const U8_MOD: int := 0x100
  const U16_MOD: int := 0x1_0000
  const U32_MOD: int := 0x1_0000_0000
  const I32_MIN: int := -0x8000_0000

  /** Conversion to uint8_t: the representative of x modulo 2^8 in [0, 2^8). */
  function ToU8(x: int): (r: int)
    ensures 0 <= r < U8_MOD
    ensures (x - r) % U8_MOD == 0
  {
    x % U8_MOD
  }

  /** Conversion to uint16_t. */
  function ToU16(x: int): (r: int)
    ensures 0 <= r < U16_MOD
    ensures (x - r) % U16_MOD == 0
  {
    x % U16_MOD
  }

  /** Conversion to uint32_t. */
  function ToU32(x: int): (r: int)
    ensures 0 <= r < U32_MOD
    ensures (x - r) % U32_MOD == 0
  {
    x % U32_MOD
  }

  /** Conversion to int32_t (two's complement wrap-around). */
  function ToI32(x: int): (r: int)
    ensures I32_MIN <= r < I32_MIN + U32_MOD
    ensures (x - r) % U32_MOD == 0
  {
    var u := x % U32_MOD;
    if u < -I32_MIN then u else u - U32_MOD
  }

  /** A value already in range is left unchanged by the unsigned conversion. */
  lemma ToU32InRange(x: int)
    requires 0 <= x < U32_MOD
    ensures ToU32(x) == x
  {
  }

  /**
   * Storing an int32_t into a uint32_t field (as the loader does for
   * byte lengths and offsets) gives the same value as converting the
   * original number straight to uint32_t.
   */
  lemma {:induction false} ToU32OfToI32(x: int)
    ensures ToU32(ToI32(x)) == ToU32(x)
  {
    var u := x % U32_MOD;
    if u >= -I32_MIN {
      assert ToI32(x) == u - U32_MOD;
      assert (u - U32_MOD) % U32_MOD == u % U32_MOD;
    }
  }

  /**
   * C++ truncation of a floating-point value toward zero (the conversion
   * used when a JSON number is read as an integer).
   */
  function Trunc(r: real): (n: int)
    ensures r >= 0.0 ==> 0 <= n && n as real <= r < n as real + 1.0
    ensures r < 0.0 ==> n <= 0 && n as real - 1.0 < r <= n as real
  {
    if r >= 0.0 then r.Floor else -((-r).Floor)
  }

  /** The sum of a sequence of counts. */
  function Total(counts: seq<int>): int {
    if counts == [] then 0 else Total(counts[..|counts| - 1]) + counts[|counts| - 1]
  }

  lemma TotalAppend(counts: seq<int>, c: int)
    ensures Total(counts + [c]) == Total(counts) + c
  {
    assert (counts + [c])[..|counts|] == counts;
  }

  lemma {:induction false} TotalNonNegative(counts: seq<int>)
    requires forall m :: 0 <= m < |counts| ==> counts[m] >= 0
    ensures Total(counts) >= 0
    decreases |counts|
  {
    if counts != [] {
      TotalNonNegative(counts[..|counts| - 1]);
    }
  }
}
