/**
 The duration encoder configured in `formatEncoder`: a `time.Duration` (a signed
 64-bit count of nanoseconds) is written as whole milliseconds, using Go's
 integer division, which truncates toward zero.
 */
module Encoding {

  newtype Int64 = x: int | -0x8000_0000_0000_0000 <= x < 0x8000_0000_0000_0000

  const NanosPerMilli: int := 1000000

  /** `int64(d) / 1000000` with Go's truncating division. */
  function EncodeDuration(d: Int64): (ms: Int64)
    ensures var rem := d as int - ms as int * NanosPerMilli;
            -NanosPerMilli < rem < NanosPerMilli && (rem == 0 || (rem < 0 <==> d < 0))
  {
    var n := d as int;
    (if n >= 0 then n / NanosPerMilli else -((-n) / NanosPerMilli)) as Int64
  }

  /** Truncation is symmetric in the sign of the duration. */
  lemma EncodeDurationIsOdd(d: Int64)
    requires d != -0x8000_0000_0000_0000
    ensures EncodeDuration(-d) == -EncodeDuration(d)
  {
  }

  /** For non-negative durations truncation and floor agree; for negative ones
      that are not whole milliseconds they differ by one, so the encoder is not
      Dafny's Euclidean division. */
  lemma EncodeDurationVersusEuclidean(d: Int64)
    ensures d >= 0 ==> EncodeDuration(d) as int == d as int / NanosPerMilli
    ensures d < 0 && d as int % NanosPerMilli != 0 ==>
              EncodeDuration(d) as int == d as int / NanosPerMilli + 1
  {
  }

  /** The encoder never overflows and shrinks the magnitude. */
  lemma EncodeDurationBounds(d: Int64)
    ensures -9223372036854 <= EncodeDuration(d) <= 9223372036854
    ensures d >= 0 ==> 0 <= EncodeDuration(d) <= d
    ensures d <= 0 ==> d <= EncodeDuration(d) <= 0
  {
  }

  lemma EncodeDurationExamples()
    ensures EncodeDuration(1999999) == 1 && EncodeDuration(-1999999) == -1
    ensures EncodeDuration(-1) == 0 && EncodeDuration(999999) == 0
  {
  }
}
