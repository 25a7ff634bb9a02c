/** The chart series generators of constants.ts: `generateTimeSeries` and the
    spot-price table. The sine and cosine terms and the jitter draws are
    parameters; only labels, lengths, the clamp at zero and the price bands
    are modelled exactly. */
module Series {
  import opened Types
  import opened Text

  /** `HH:00`, the label of hour i. */
  function HourLabel(i: nat): string {
    Pad2(i) + ":00"
  }

  /** `HH:MM` for the i-th quarter hour of a 96-point series. */
  function QuarterLabel(i: nat): string {
    Pad2(i / 4) + ":" + Pad2((i % 4) * 15)
  }

  /** A 24-point series is labelled by hours, any other length by quarter hours. */
  function SeriesLabel(points: nat, i: nat): string {
    if points == 24 then HourLabel(i) else QuarterLabel(i)
  }

  function Max0(x: real): (m: real)
    ensures m >= 0.0 && m >= x
    ensures m == x || m == 0.0
  {
    if x > 0.0 then x else 0.0
  }

  /** The non-random inputs of one point: sin(i * 0.25), cos(i * 0.25)
      and the jitter draw in [0, 1). */
  datatype Wave = Wave(sine: real, cosine: real, jitter: real)

  predicate ValidWave(w: Wave) {
    -1.0 <= w.sine <= 1.0 && -1.0 <= w.cosine <= 1.0 && 0.0 <= w.jitter < 1.0
  }

  /** One point: its label, and the three series clamped at zero. */
  function SeriesPoint(points: nat, base: real, variance: real, i: nat, w: Wave): (p: ChartDataPoint)
    ensures p.time == SeriesLabel(points, i)
    ensures p.value >= 0.0 && p.value >= base + w.sine * variance + (w.jitter - 0.5) * (variance / 2.0)
    ensures p.value2.Some? && p.value2.value >= 0.0 && p.value2.value >= base * 0.6 + w.cosine * variance
    ensures p.value3.Some? && p.value3.value >= 0.0 && p.value3.value >= base * 1.1 + w.sine * variance
  {
    var trend := w.sine * variance;
    ChartDataPoint(
      SeriesLabel(points, i),
      Max0(base + trend + (w.jitter - 0.5) * (variance / 2.0)),
      Some(Max0(base * 0.6 + w.cosine * variance)),
      Some(Max0(base * 1.1 + trend)))
  }

  /** `generateTimeSeries(points, base, variance)`: exactly `points` entries,
      labelled by hour for 24 points and by quarter hour otherwise, with all
      three values clamped at zero. */
  function GenerateTimeSeries(points: nat, base: real, variance: real, waves: seq<Wave>)
    : (r: seq<ChartDataPoint>)
    requires |waves| >= points
    requires forall k :: 0 <= k < |waves| ==> ValidWave(waves[k])
    ensures |r| == points
    ensures forall i :: 0 <= i < points ==> r[i].time == SeriesLabel(points, i)
    ensures forall i :: 0 <= i < points ==>
      r[i].value >= 0.0 && r[i].value2.Some? && r[i].value2.value >= 0.0
      && r[i].value3.Some? && r[i].value3.value >= 0.0
  {
    seq(points, i requires 0 <= i < points => SeriesPoint(points, base, variance, i, waves[i]))
  }

  /** Hourly labels read back as their hour, so they are pairwise distinct. */
  lemma HourLabelRoundTrip(i: nat)
    requires i < 100
    ensures |HourLabel(i)| == 5
    ensures ParseDecimal(HourLabel(i)[..2]) == i
  {
    assert HourLabel(i)[..2] == Pad2(i);
    Pad2RoundTrip(i);
  }

  lemma HourLabelsDistinct(i: nat, j: nat)
    requires i < 100 && j < 100 && i != j
    ensures HourLabel(i) != HourLabel(j)
  {
    HourLabelRoundTrip(i);
    HourLabelRoundTrip(j);
  }

  // ------------------------------------------------------------ spot price

  /** The price band of hour i: noon peak 10-14, evening peak 18-21,
      night valley 0-6, flat otherwise. */
  function SpotBase(i: nat): (price: real)
    ensures price in {0.25, 0.7, 1.2, 1.5}
    ensures price >= 1.2 ==> 10 <= i <= 21
  {
    if 10 <= i <= 14 then 1.2
    else if 18 <= i <= 21 then 1.5
    else if i <= 6 then 0.25
    else 0.7
  }

  /** The four bands as a hour classification, stated independently of SpotBase. */
  lemma SpotBands(i: nat)
    requires i < 24
    ensures SpotBase(i) in {0.25, 0.7, 1.2, 1.5}
    ensures SpotBase(i) == 0.7 <==> i in {7, 8, 9, 15, 16, 17, 22, 23}
    ensures SpotBase(i) == 1.2 <==> i in {10, 11, 12, 13, 14}
    ensures SpotBase(i) == 1.5 <==> 18 <= i <= 21
    ensures SpotBase(i) == 0.25 <==> i <= 6
  {
  }

  /** `SPOT_PRICE_DATA`: 24 hourly points, each within 0.05 of its band price. */
  function SpotPriceData(jitter: seq<real>): (r: seq<ChartDataPoint>)
    requires |jitter| >= 24
    requires forall k :: 0 <= k < |jitter| ==> 0.0 <= jitter[k] < 1.0
    ensures |r| == 24
    ensures forall i :: 0 <= i < 24 ==> r[i].time == HourLabel(i) && |r[i].time| == 5
    ensures forall i :: 0 <= i < 24 ==>
      SpotBase(i) - 0.05 <= r[i].value < SpotBase(i) + 0.05
    ensures forall i :: 0 <= i < 24 ==> r[i].value2.None? && r[i].value3.None?
  {
    seq(24, i requires 0 <= i < 24 =>
      ChartDataPoint(HourLabel(i), SpotBase(i) + (jitter[i] - 0.5) * 0.1, None, None))
  }
}
