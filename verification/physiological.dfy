/** `PhysiologicalMonitor` (physiological_stub.py): a mock heart-rate feed.
    The random variation of each reading is a parameter, so what remains is
    clamped integer arithmetic over the monitor's two fields. */
module Physiological {
  import opened Wrappers

  const MinHeartRate: int := 50
  const MaxHeartRate: int := 150
  /** The baseline of a fresh monitor, and of stress level 0. */
  const RestingHeartRate: int := 70
  /** Extra beats per minute at stress level 100. */
  const MaxStressIncrease: int := 40
  /** Length of a trend, in minutes, when none is given. */
  const DefaultTrendMinutes: int := 30

  datatype Monitor = Monitor(baseHeartRate: int, currentHeartRate: int)

  /** A monitor as constructed: both rates start at the resting rate. */
  const InitialMonitor: Monitor := Monitor(RestingHeartRate, RestingHeartRate)

  /** A fresh monitor reports a current rate of 70 and zero statistics for
      an absent list, and its first reading is drawn around a baseline of 70. */
  lemma InitialMonitorState(variation: int)
    ensures InitialMonitor.baseHeartRate == 70 && InitialMonitor.currentHeartRate == 70
    ensures GetHeartRateStats(InitialMonitor, None) == Stats(0, 0, 0, 70)
    ensures MinHeartRate <= 70 + variation <= MaxHeartRate ==> GetCurrentHeartRate(InitialMonitor, variation).1 == 70 + variation
  {
  }

  /** One trend entry; its timestamp is not modelled. */
  datatype Reading = Reading(heartRate: int, minute: int)

  datatype Stats = Stats(avg: int, min: int, max: int, current: int)

  /** `max(50, min(150, x))`. */
  function Clamp(x: int): (r: int)
    ensures MinHeartRate <= r <= MaxHeartRate
    ensures MinHeartRate <= x <= MaxHeartRate ==> r == x
    ensures x < MinHeartRate ==> r == MinHeartRate
    ensures x > MaxHeartRate ==> r == MaxHeartRate
  {
    Max(MinHeartRate, Min(MaxHeartRate, x))
  }

  /** `get_current_heart_rate`, with the drawn variation as `variation`:
      the updated monitor and the returned rate. */
  function GetCurrentHeartRate(m: Monitor, variation: int): (r: (Monitor, int))
    ensures MinHeartRate <= r.1 <= MaxHeartRate
    ensures MinHeartRate <= m.baseHeartRate + variation <= MaxHeartRate ==> r.1 == m.baseHeartRate + variation
    ensures r.0.currentHeartRate == r.1
    ensures r.0.baseHeartRate == m.baseHeartRate
  {
    var hr := Clamp(m.baseHeartRate + variation);
    (m.(currentHeartRate := hr), hr)
  }

  /** With a baseline any stress level in [0, 100] gives and a variation in
      the range the source draws from (-15..20), no clamping happens. */
  lemma CurrentRateUnclampedInNormalRange(m: Monitor, variation: int)
    requires RestingHeartRate <= m.baseHeartRate <= RestingHeartRate + MaxStressIncrease
    requires -15 <= variation <= 20
    ensures GetCurrentHeartRate(m, variation).1 == m.baseHeartRate + variation
  {
  }

  /** `get_heart_rate_trend(minutes)`, with `variations[i]` the variation
      drawn for minute `i`. A negative `minutes` gives no readings. */
  method GetHeartRateTrend(m: Monitor, minutes: int, variations: seq<int>) returns (readings: seq<Reading>)
    requires |variations| == Max(minutes, 0)
    ensures |readings| == Max(minutes, 0)
    ensures forall i :: 0 <= i < |readings| ==> readings[i].minute == i
    ensures forall i :: 0 <= i < |readings| ==> readings[i].heartRate == Clamp(m.baseHeartRate + variations[i])
    ensures forall i :: 0 <= i < |readings| ==> MinHeartRate <= readings[i].heartRate <= MaxHeartRate
  {
    readings := [];
    var i := 0;
    while i < minutes
      invariant 0 <= i <= Max(minutes, 0)
      invariant |readings| == i
      invariant forall k :: 0 <= k < i ==> readings[k] == Reading(Clamp(m.baseHeartRate + variations[k]), k)
    {
      var hr := Clamp(m.baseHeartRate + variations[i]);
      readings := readings + [Reading(hr, i)];
      i := i + 1;
    }
  }

  /** `get_heart_rate_trend()` with the argument omitted: 30 readings. */
  method GetDefaultHeartRateTrend(m: Monitor, variations: seq<int>) returns (readings: seq<Reading>)
    requires |variations| == DefaultTrendMinutes
    ensures |readings| == 30
    ensures forall i :: 0 <= i < |readings| ==> readings[i] == Reading(Clamp(m.baseHeartRate + variations[i]), i)
  {
    readings := GetHeartRateTrend(m, DefaultTrendMinutes, variations);
  }

  /** `int(level / 100 * 40)`: the exact quotient `level * 40 / 100`,
      truncated toward zero as Python's `int()` does. */
  function StressIncrease(level: int): (inc: int)
    ensures level >= 0 ==> inc * 100 <= level * MaxStressIncrease < (inc + 1) * 100
    ensures level < 0 ==> (inc - 1) * 100 < level * MaxStressIncrease <= inc * 100
  {
    var scaled := level * MaxStressIncrease;
    if scaled >= 0 then scaled / 100 else -((-scaled) / 100)
  }

  /** `set_stress_level(level)`: only the baseline changes. */
  function SetStressLevel(m: Monitor, level: int): (m': Monitor)
    ensures m'.currentHeartRate == m.currentHeartRate
    ensures m'.baseHeartRate == RestingHeartRate + StressIncrease(level)
    ensures 0 <= level <= 100 ==> RestingHeartRate <= m'.baseHeartRate <= RestingHeartRate + MaxStressIncrease
    ensures level == 0 ==> m'.baseHeartRate == RestingHeartRate
    ensures level == 100 ==> m'.baseHeartRate == RestingHeartRate + MaxStressIncrease
  {
    m.(baseHeartRate := RestingHeartRate + StressIncrease(level))
  }

  /** A higher stress level never lowers the baseline. */
  lemma StressMonotone(m: Monitor, low: int, high: int)
    requires low <= high
    ensures SetStressLevel(m, low).baseHeartRate <= SetStressLevel(m, high).baseHeartRate
  {
  }

  function Rates(readings: seq<Reading>): (rs: seq<int>)
    ensures |rs| == |readings|
    ensures forall i :: 0 <= i < |readings| ==> rs[i] == readings[i].heartRate
  {
    seq(|readings|, i requires 0 <= i < |readings| => readings[i].heartRate)
  }

  function Sum(s: seq<int>): (sum: int)
  {
    if |s| == 0 then 0 else Sum(s[..|s| - 1]) + s[|s| - 1]
  }

  /** Python's `min` over a non-empty list. */
  function SeqMin(s: seq<int>): (r: int)
    requires |s| > 0
    ensures exists i :: 0 <= i < |s| && s[i] == r
    ensures forall i :: 0 <= i < |s| ==> r <= s[i]
  {
    if |s| == 1 then s[0]
    else
      var r := SeqMin(s[1..]);
      if s[0] <= r then s[0] else r
  }

  /** Python's `max` over a non-empty list. */
  function SeqMax(s: seq<int>): (r: int)
    requires |s| > 0
    ensures exists i :: 0 <= i < |s| && s[i] == r
    ensures forall i :: 0 <= i < |s| ==> s[i] <= r
  {
    if |s| == 1 then s[0]
    else
      var r := SeqMax(s[1..]);
      if s[0] >= r then s[0] else r
  }

  lemma {:induction false} SumBounds(s: seq<int>, lo: int, hi: int)
    requires forall i :: 0 <= i < |s| ==> lo <= s[i] <= hi
    ensures |s| * lo <= Sum(s) <= |s| * hi
  {
    if |s| > 0 {
      SumBounds(s[..|s| - 1], lo, hi);
      assert (|s| - 1) * lo + lo == |s| * lo;
      assert (|s| - 1) * hi + hi == |s| * hi;
    }
  }

  /** Python's `round(n / d)`: the integer nearest to the quotient, with
      halves going to the even neighbour. */
  function RoundHalfEven(n: int, d: int): (r: int)
    requires d > 0
    ensures -d <= 2 * (n - r * d) <= d
    ensures 2 * (n - r * d) == d || 2 * (n - r * d) == -d ==> r % 2 == 0
  {
    var q := n / d;
    var rem := n % d;
    assert n == q * d + rem;
    assert (q + 1) * d == q * d + d;
    if 2 * rem < d then q
    else if 2 * rem > d then q + 1
    else if q % 2 == 0 then q
    else q + 1
  }

  /** Rounding a quotient that lies in [lo, hi] stays in [lo, hi]. */
  lemma RoundWithin(n: int, d: int, lo: int, hi: int)
    requires d > 0
    requires d * lo <= n <= d * hi
    ensures lo <= RoundHalfEven(n, d) <= hi
  {
    var r := RoundHalfEven(n, d);
    assert (r + 1) * d == r * d + d && (r - 1) * d == r * d - d;
    MulMonotone(r + 1, lo, d);
    MulMonotone(hi, r - 1, d);
  }

  lemma MulMonotone(a: int, b: int, d: int)
    requires d > 0
    ensures a <= b ==> a * d <= b * d
  {
    assert (b - a) * d == b * d - a * d;
  }

  /** `get_heart_rate_stats(readings)`; `None` stands for the omitted argument. */
  function GetHeartRateStats(m: Monitor, readings: Option<seq<Reading>>): (s: Stats)
    ensures s.current == m.currentHeartRate
    ensures readings.None? || |readings.value| == 0 ==> s.avg == 0 && s.min == 0 && s.max == 0
    ensures readings.Some? && |readings.value| > 0 ==>
              && (exists i :: 0 <= i < |readings.value| && readings.value[i].heartRate == s.min)
              && (exists i :: 0 <= i < |readings.value| && readings.value[i].heartRate == s.max)
              && (forall i :: 0 <= i < |readings.value| ==> s.min <= readings.value[i].heartRate <= s.max)
              && s.min <= s.avg <= s.max
  {
    if readings.None? || |readings.value| == 0 then
      Stats(0, 0, 0, m.currentHeartRate)
    else
      var rates := Rates(readings.value);
      var lo := SeqMin(rates);
      var hi := SeqMax(rates);
      SumBounds(rates, lo, hi);
      RoundWithin(Sum(rates), |rates|, lo, hi);
      Stats(RoundHalfEven(Sum(rates), |rates|), lo, hi, m.currentHeartRate)
  }

  /** The average is the nearest integer to the arithmetic mean of the rates. */
  lemma AverageIsNearestToMean(m: Monitor, readings: seq<Reading>)
    requires |readings| > 0
    ensures var s := GetHeartRateStats(m, Some(readings));
            && -|readings| <= 2 * (Sum(Rates(readings)) - s.avg * |readings|) <= |readings|
            && ((2 * (Sum(Rates(readings)) - s.avg * |readings|) == |readings|
                 || 2 * (Sum(Rates(readings)) - s.avg * |readings|) == -|readings|)
                ==> s.avg % 2 == 0)
  {
  }

  /** Stats of readings from a trend lie within the clamping range. */
  lemma TrendStatsInRange(m: Monitor, readings: seq<Reading>)
    requires |readings| > 0
    requires forall i :: 0 <= i < |readings| ==> MinHeartRate <= readings[i].heartRate <= MaxHeartRate
    ensures var s := GetHeartRateStats(m, Some(readings));
            MinHeartRate <= s.min <= s.avg <= s.max <= MaxHeartRate
  {
  }
}
