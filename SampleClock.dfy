/**
 * The audio sample clock of processAudio in MediaRecorder.kt: after each
 * read of `read` bytes of 16-bit PCM the clock moves on by the duration of
 * those bytes in microseconds.
 */
module SampleClock {
  /** Division is determined by any quotient and in-range remainder. */
  lemma DivUnique(a: int, d: int, q: int, r: int)
    requires d > 0 && 0 <= r < d && a == d * q + r
    ensures a / d == q
  {
    var k := q - a / d;
    assert d * k == a % d - r by {
      assert a == d * (a / d) + a % d;
      assert d * q - d * (a / d) == d * k;
    }
    if k > 0 {
      MulAtLeast(d, k);
    } else if k < 0 {
      MulAtLeast(d, -k);
    }
  }

  lemma MulAtLeast(d: int, k: int)
    requires d > 0 && k >= 1
    ensures d * k >= d
  {
  }

  lemma Distribute(b: int, c: int, q2: int, r2: int)
    ensures b * (c * q2 + r2) == (b * c) * q2 + b * r2
  {
  }

  lemma Bound(b: int, c: int, r2: int, r: int)
    requires b > 0 && 0 <= r2 < c && 0 <= r < b
    ensures 0 <= b * r2 + r < b * c
  {
    assert b * r2 <= b * (c - 1);
  }

  /** Dividing by b and then by c is dividing by b * c, for non-negative dividends. */
  lemma DivDiv(a: int, b: int, c: int)
    requires a >= 0 && b > 0 && c > 0
    ensures (a / b) / c == a / (b * c)
  {
    var q, r := a / b, a % b;
    var q2, r2 := q / c, q % c;
    Distribute(b, c, q2, r2);
    Bound(b, c, r2, r);
    DivUnique(a, b * c, q2, b * r2 + r);
  }

  /**
   * How far the clock moves for a read of `read` bytes: the bytes are
   * first turned into microseconds per channel and then divided by the
   * sample rate, which comes to the read's duration in whole
   * microseconds, rounded down, and never moves the clock back.
   */
  function ClockAdvance(read: int, channels: int, sampleRate: int): (r: int)
    requires read > 0 && channels > 0 && sampleRate > 0
    ensures r >= 0
    ensures r == (read * 1000000) / (2 * channels * sampleRate)
  {
    DivDiv(read * 1000000, 2 * channels, sampleRate);
    (read * 1000000 / (2 * channels)) / sampleRate
  }
}
