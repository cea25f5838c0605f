/**
  The random-value arithmetic of the dashboard: how one result of
  `Math.random()` becomes a heart rate, an SpO2 percentage or a temperature.

  The random source is a parameter: every draw is a `Draw`, a real in [0, 1),
  which is exactly what `Math.random()` promises. Arithmetic is exact (`real`),
  so the rounding drift of IEEE doubles is not modelled.
 */
module Simulation {

  /** One result of `Math.random()`. */
  type Draw = r: real | 0.0 <= r < 1.0

  /** The metric names offered by the metric selector. */
  const HeartRate: string := "Heart Rate"
  const SpO2: string := "SpO2"
  const Temperature: string := "Temperature"
  const MetricOptions: seq<string> := [HeartRate, SpO2, Temperature]

  /** True when `x` has no fractional part. */
  predicate IsWhole(x: real) {
    x.Floor as real == x
  }

  /** `Math.round` on a finite number: the nearest integer, halves rounded up. */
  function JsRound(x: real): (n: int)
    ensures n as real - 0.5 <= x < n as real + 0.5
  {
    (x + 0.5).Floor
  }

  /** `Math.floor(Math.random() * 40) + 60`: the draw picks one of 40 equal buckets. */
  function HeartRateFrom(r: Draw): (bpm: int)
    ensures 60 <= bpm <= 99
    ensures (bpm - 60) as real <= 40.0 * r < (bpm - 59) as real
  {
    (r * 40.0).Floor + 60
  }

  /** `Math.floor(Math.random() * 10) + 90`: the draw picks one of 10 equal buckets. */
  function SpO2From(r: Draw): (pct: int)
    ensures 90 <= pct <= 99
    ensures (pct - 90) as real <= 10.0 * r < (pct - 89) as real
  {
    (r * 10.0).Floor + 90
  }

  /**
    `Math.round((Math.random() * 4 + 35) * 10)`, the temperature in tenths of a
    degree. The upper end 390 (39.0 degrees) is reachable: every draw of at
    least 0.9875 rounds up to it.
   */
  function TemperatureTenthsFrom(r: Draw): (tenths: int)
    ensures 350 <= tenths <= 390
    ensures tenths as real - 0.5 <= 40.0 * r + 350.0 < tenths as real + 0.5
    ensures tenths == 390 <==> r >= 0.9875
    ensures tenths == 350 <==> r < 0.0125
  {
    JsRound((r * 4.0 + 35.0) * 10.0)
  }

  /** The temperature itself: the rounded tenths divided by 10. */
  function TemperatureFrom(r: Draw): (celsius: real)
    ensures 35.0 <= celsius <= 39.0
    ensures IsWhole(10.0 * celsius)
  {
    TemperatureTenthsFrom(r) as real / 10.0
  }

  /**
    The value table of the metric series: which values a sample of `metric`
    may take. Unknown metric names only ever yield 0.
   */
  ghost predicate InRange(metric: string, v: real) {
    if metric == HeartRate then IsWhole(v) && 60.0 <= v <= 99.0
    else if metric == SpO2 then IsWhole(v) && 90.0 <= v <= 99.0
    else if metric == Temperature then IsWhole(10.0 * v) && 350.0 <= 10.0 * v <= 390.0
    else v == 0.0
  }

  /** `getRandomValue`: one sample of `metric` from the draw `r`. */
  function RandomValue(metric: string, r: Draw): (v: real)
    ensures InRange(metric, v)
    ensures metric == HeartRate ==> v == HeartRateFrom(r) as real
    ensures metric == SpO2 ==> v == SpO2From(r) as real
    ensures metric == Temperature ==> v == TemperatureFrom(r)
  {
    if metric == HeartRate then HeartRateFrom(r) as real
    else if metric == SpO2 then SpO2From(r) as real
    else if metric == Temperature then TemperatureFrom(r)
    else 0.0
  }

  /** Every value of the range table is produced by some draw. */
  lemma RandomValueCoversRange(metric: string, v: real)
    requires InRange(metric, v)
    ensures exists r: Draw :: RandomValue(metric, r) == v
  {
    if metric == HeartRate {
      var n := v.Floor;
      var r: Draw := (n - 60) as real / 40.0;
      assert (r * 40.0).Floor == n - 60;
      assert RandomValue(metric, r) == v;
    } else if metric == SpO2 {
      var n := v.Floor;
      var r: Draw := (n - 90) as real / 10.0;
      assert (r * 10.0).Floor == n - 90;
      assert RandomValue(metric, r) == v;
    } else if metric == Temperature {
      var t := (10.0 * v).Floor;
      var r: Draw := if t == 350 then 0.0 else ((t - 350) as real - 0.25) / 40.0;
      assert JsRound((r * 4.0 + 35.0) * 10.0) == t;
      assert RandomValue(metric, r) == v;
    } else {
      var r: Draw := 0.0;
      assert RandomValue(metric, r) == v;
    }
  }

  /** The temperature reaches 39.0 degrees, the upper end of the 35 to 39 range. */
  lemma TemperatureReaches39()
    ensures exists r: Draw :: TemperatureFrom(r) == 39.0
  {
    var r: Draw := 0.99;
    assert TemperatureTenthsFrom(r) == 390;
    assert TemperatureFrom(r) == 390.0 / 10.0 == 39.0;
  }
}
