/** The time-of-day labels of the timeline slider (components/Timeline.tsx).
    A slider value counts quarter hours: 0 is midnight, 96 the end of the day. */
module Timeline {
  import opened Text
  import Series

  /** The slider's range. */
  const SliderMax: nat := 96

  /** The minutes text of quarter q is one of the four quarter-hour marks. */
  lemma QuarterMinutes(q: nat)
    requires q < 4
    ensures Pad2(q * 15) == ["00", "15", "30", "45"][q]
  {
    if q == 1 { assert NatToString(15) == NatToString(1) + [Digit(5)]; }
    if q == 2 { assert NatToString(30) == NatToString(3) + [Digit(0)]; }
    if q == 3 { assert NatToString(45) == NatToString(4) + [Digit(5)]; }
  }

  /** `formatTime`: hours as value / 4 and minutes as (value % 4) * 15, each
      padded to two digits. */
  function FormatTime(v: nat): (s: string)
    ensures |s| >= 5 && s[|s| - 3] == ':'
    ensures s[|s| - 2..] in {"00", "15", "30", "45"}
    ensures v < 400 ==> |s| == 5
  {
    QuarterMinutes(v % 4);
    Pad2(v / 4) + ":" + Pad2((v % 4) * 15)
  }

  /** Reads an `H..H:MM` label back as a slider value (the reference decoder). */
  function ParseTime(s: string): nat
    requires |s| >= 3
  {
    4 * ParseDecimal(s[..|s| - 3]) + ParseDecimal(s[|s| - 2..]) / 15
  }

  /** Decoding a formatted value gives the value back. */
  lemma FormatTimeRoundTrip(v: nat)
    ensures ParseTime(FormatTime(v)) == v
  {
    var h, m := v / 4, (v % 4) * 15;
    var s := FormatTime(v);
    assert |Pad2(m)| == 2;
    assert s[..|s| - 3] == Pad2(h);
    assert s[|s| - 2..] == Pad2(m);
    Pad2RoundTrip(h);
    Pad2RoundTrip(m);
  }

  /** No two slider values share a label. */
  lemma FormatTimeInjective(a: nat, b: nat)
    requires a != b
    ensures FormatTime(a) != FormatTime(b)
  {
    FormatTimeRoundTrip(a);
    FormatTimeRoundTrip(b);
  }

  /** Over the slider range the hours run from 0 to 24. */
  lemma SliderHours(v: nat)
    requires v <= SliderMax
    ensures |FormatTime(v)| == 5
    ensures 0 <= ParseDecimal(FormatTime(v)[..2]) <= 24
    ensures v == SliderMax ==> FormatTime(v) == "24:00"
  {
    var s := FormatTime(v);
    assert s[..2] == Pad2(v / 4);
    Pad2RoundTrip(v / 4);
  }

  /** The initial timeline value 48 reads as noon. */
  lemma InitialTimeIsNoon()
    ensures FormatTime(48) == "12:00"
  {
  }

  /** The label under a tick: `Math.floor(tick/4)` padded, then ":00". */
  function TickLabel(tick: nat): string {
    Pad2(tick / 4) + ":00"
  }

  /** The five ticks of the slider and their labels. */
  function TickLabels(): (labels: seq<string>)
    ensures labels == ["00:00", "06:00", "12:00", "18:00", "24:00"]
  {
    var ticks := [0, 24, 48, 72, 96];
    var labels := seq(|ticks|, k requires 0 <= k < |ticks| => TickLabel(ticks[k]));
    assert labels[0] == "00:00" && labels[1] == "06:00";
    assert labels[2] == "12:00" by { assert NatToString(12) == NatToString(1) + [Digit(2)]; }
    assert labels[3] == "18:00" by { assert NatToString(18) == NatToString(1) + [Digit(8)]; }
    assert labels[4] == "24:00" by { assert NatToString(24) == NatToString(2) + [Digit(4)]; }
    labels
  }

  /** A tick on a whole hour is labelled as the slider would label that value. */
  lemma TickLabelIsFormatTime(tick: nat)
    requires tick % 4 == 0
    ensures TickLabel(tick) == FormatTime(tick)
  {
    assert Pad2(0) == "00";
  }

  /** The quarter-hour series labels of the generator agree with the slider's. */
  lemma SeriesLabelsAgree(points: nat, i: nat)
    requires points != 24
    ensures Series.SeriesLabel(points, i) == FormatTime(i)
  {
  }
}
