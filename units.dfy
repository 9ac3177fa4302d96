/**
 * The SAPI5 driver's unit conversions between the host's percent settings
 * (0..100) and the engine's units. All of them are Python integer
 * expressions; `//` by a positive divisor is floor division, which is what
 * Dafny's Euclidean `/` computes for a positive divisor.
 */
module Units {

  /** Python's `int(x)` of a float: truncation toward zero. */
  function Truncate(x: real): (n: int)
    ensures 0.0 <= x ==> n as real <= x < n as real + 1.0
    ensures x < 0.0 ==> n as real - 1.0 < x <= n as real
  {
    if x >= 0.0 then x.Floor else -((-x).Floor)
  }

  /** `_percentToRate`: `(percent - 50) // 5`. The result is the engine rate
      whose five-percent band contains `percent`. */
  function PercentToRate(percent: int): (rate: int)
    ensures 5 * rate + 50 <= percent < 5 * rate + 55
  {
    (percent - 50) / 5
  }

  /** `_percentToPitch`: `percent // 2 - 25`. The result is the SAPI
      `absmiddle` value whose two-percent band contains `percent`. */
  function PercentToPitch(percent: int): (pitch: int)
    ensures 2 * (pitch + 25) <= percent < 2 * (pitch + 25) + 2
  {
    percent / 2 - 25
  }

  /** `_get_rate`: the engine's rate (-10..10) as a percent. */
  function EngineRateToPercent(engineRate: int): (percent: int)
    ensures percent % 5 == 0
  {
    engineRate * 5 + 50
  }

  /** Reading the engine rate as a percent and converting back gives the
      same engine rate: `_percentToRate(_get_rate()) == tts.rate`. */
  lemma RateRoundTrip(engineRate: int)
    ensures PercentToRate(EngineRateToPercent(engineRate)) == engineRate
  {
  }

  /** `_percentToRate` is exactly the inverse of `_get_rate` up to the
      five-percent band: it picks the one engine rate whose percent is the
      largest not above the given one. */
  lemma PercentToRateIsBandOfGetRate(percent: int, engineRate: int)
    ensures PercentToRate(percent) == engineRate
        <==> EngineRateToPercent(engineRate) <= percent < EngineRateToPercent(engineRate) + 5
  {
    var r := PercentToRate(percent);
    if EngineRateToPercent(engineRate) <= percent < EngineRateToPercent(engineRate) + 5 {
      assert 5 * r + 50 <= percent < 5 * r + 55;
      assert 5 * engineRate + 50 <= percent < 5 * engineRate + 55;
      assert -5 < 5 * (r - engineRate) < 5;
    }
  }

  /** The anchor points: 50% is the engine's default rate and pitch, 100% is
      the engine's fastest rate. */
  lemma DefaultsAreZero()
    ensures PercentToRate(50) == 0 && PercentToRate(100) == 10 && PercentToRate(0) == -10
    ensures PercentToPitch(50) == 0 && PercentToPitch(100) == 25 && PercentToPitch(0) == -25
  {
  }

  /** Percent settings in 0..100 give engine rates in -10..10 and pitches in
      -25..25, and both conversions are monotone. */
  lemma ConversionsInRange(p: int, q: int)
    requires 0 <= p <= q <= 100
    ensures -10 <= PercentToRate(p) <= PercentToRate(q) <= 10
    ensures -25 <= PercentToPitch(p) <= PercentToPitch(q) <= 25
  {
  }
}
