/**
 * The value state of the drawing widgets (widgets.py): the circular gauge,
 * the mini line chart's bounded history and the disk usage bar. Drawing is
 * not modelled; a method's `redraw` result says whether it queues one.
 */
module Widgets {
  import opened Base
  import opened Text

  /** The number of tenths `:.1f` shows for `p`: the nearest integer to
      `p * 10`, a tie going to the even one. */
  function Tenths(p: real): (t: int)
    ensures -0.5 <= t as real - p * 10.0 <= 0.5
    ensures Abs(t as real - p * 10.0) == 0.5 ==> t % 2 == 0
  {
    var f := (p * 10.0).Floor;
    var d := p * 10.0 - f as real;
    if d > 0.5 || (d == 0.5 && f % 2 == 1) then f + 1 else f
  }

  /** `f"{p:.1f}%"` for a percentage: the whole part, a point, one digit and
      the percent sign. */
  function PercentLabel(p: real): string
    requires 0.0 <= p
  {
    var t := Tenths(p);
    NatToString(t / 10) + "." + [DigitChar(t % 10)] + "%"
  }

  /** The colour band of a gauge. */
  datatype Band = Green | Amber | Red

  /** `_get_color`: below 70 green, below 85 amber, otherwise red. */
  function BandOf(percentage: real): Band {
    if percentage < 70.0 then Green else if percentage < 85.0 then Amber else Red
  }

  /** A circular gauge's shown values. */
  datatype Gauge = Gauge(percentage: real, caption: string, title: string)

  /** Python truthiness of an optional text argument. */
  predicate HasText(s: Option<string>) {
    s.Some? && s.value != ""
  }

  /** `CircularProgressWidget.set_value`: the new gauge and whether a redraw
      is queued. */
  function SetGauge(g: Gauge, percentage: real, text: Option<string>, title: Option<string>): (Gauge, bool) {
    var p := Clamp(percentage);
    var l := if HasText(text) then text.value else PercentLabel(p);
    var t := if HasText(title) then title.value else g.title;
    if Abs(p - g.percentage) > 0.5 || l != g.caption || t != g.title then (Gauge(p, l, t), true)
    else (g, false)
  }

  /** `MiniLineChartWidget.add_data_point` on the history: append the
      clamped value, then drop the oldest point if over capacity. */
  function Pushed(points: seq<real>, value: real, capacity: nat): seq<real> {
    var appended := points + [Clamp(value)];
    if |appended| > capacity then appended[1..] else appended
  }

  /** Whether adding `value` queues a redraw. */
  predicate RedrawsOn(points: seq<real>, value: real) {
    points == [] || Abs(Clamp(value) - points[|points| - 1]) > 0.5
  }

  class CircularProgress {
    var percentage: real
    var caption: string
    var title: string

    function State(): Gauge
      reads this
    {
      Gauge(percentage, caption, title)
    }

    constructor()
      ensures State() == Gauge(0.0, "0%", "")
    {
      percentage := 0.0;
      caption := "0%";
      title := "";
    }

    /** The colour the gauge is drawn in. */
    function Color(): Band
      reads this
    {
      BandOf(percentage)
    }

    method SetValue(p: real, newLabel: Option<string>, newTitle: Option<string>) returns (redraw: bool)
      modifies this
      ensures (State(), redraw) == SetGauge(old(State()), p, newLabel, newTitle)
    {
      var newPercentage := Clamp(p);
      var l := if HasText(newLabel) then newLabel.value else PercentLabel(newPercentage);
      var t := if HasText(newTitle) then newTitle.value else title;
      redraw := false;
      if Abs(newPercentage - percentage) > 0.5 || l != caption || t != title {
        percentage := newPercentage;
        caption := l;
        title := t;
        redraw := true;
      }
    }
  }

  class MiniLineChart {
    const maxPoints: nat
    var dataPoints: seq<real>

    /** The history never exceeds its capacity and holds percentages only. */
    predicate Valid()
      reads this
    {
      |dataPoints| <= maxPoints && forall i | 0 <= i < |dataPoints| :: 0.0 <= dataPoints[i] <= 100.0
    }

    constructor(capacity: nat)
      ensures maxPoints == capacity && dataPoints == [] && Valid()
    {
      maxPoints := capacity;
      dataPoints := [];
    }

    method AddDataPoint(value: real) returns (redraw: bool)
      requires Valid()
      modifies this
      ensures Valid()
      ensures dataPoints == Pushed(old(dataPoints), value, maxPoints)
      ensures redraw <==> RedrawsOn(old(dataPoints), value)
    {
      var newValue := Clamp(value);
      redraw := dataPoints == [] || Abs(newValue - dataPoints[|dataPoints| - 1]) > 0.5;
      dataPoints := dataPoints + [newValue];
      if |dataPoints| > maxPoints {
        dataPoints := dataPoints[1..];
      }
      PushedKeepsBound(old(dataPoints), value, maxPoints);
    }
  }

  class DiskUsageBar {
    var percentage: real
    var usedGb: real
    var totalGb: real

    constructor()
      ensures percentage == 0.0 && usedGb == 0.0 && totalGb == 0.0
    {
      percentage := 0.0;
      usedGb := 0.0;
      totalGb := 0.0;
    }

    /** `set_value`: the percentage clamped, the sizes stored as given; a
        redraw is always queued. */
    method SetValue(p: real, used: real, total: real) returns (redraw: bool)
      modifies this
      ensures percentage == Clamp(p) && usedGb == used && totalGb == total && redraw
    {
      percentage := Clamp(p);
      usedGb := used;
      totalGb := total;
      redraw := true;
    }
  }

  // ---------------------------------------------------------------------
  // Properties of the widget state.
  // ---------------------------------------------------------------------

  /** The stored percentage is always in 0..100; a missing or empty label
      becomes the rendered percentage and a missing or empty title keeps the
      current one. The gauge changes exactly when a redraw is queued, and then
      holds the clamped value. */
  lemma SetGaugeMeaning(g: Gauge, percentage: real, text: Option<string>, title: Option<string>)
    requires 0.0 <= g.percentage <= 100.0
    ensures var (g', redraw) := SetGauge(g, percentage, text, title);
      && 0.0 <= g'.percentage <= 100.0
      && (redraw <==> g' != g)
      && (redraw ==> g'.percentage == Clamp(percentage)
                     && g'.caption == (if HasText(text) then text.value else PercentLabel(Clamp(percentage)))
                     && g'.title == (if HasText(title) then title.value else g.title))
  {
  }

  /** A change of at most 0.5 that renders the same label, given or
      default, under the same title leaves the gauge as it was and queues
      nothing. */
  lemma SmallChangeIgnored(g: Gauge, percentage: real, text: Option<string>)
    requires 0.0 <= percentage <= 100.0 && Abs(percentage - g.percentage) <= 0.5
    requires g.caption == if HasText(text) then text.value else PercentLabel(percentage)
    ensures SetGauge(g, percentage, text, None) == (g, false)
  {
  }

  /** Two percentages with the same tenths lie within 0.1 of each other. */
  lemma SameTenthsClose(p: real, q: real)
    requires Tenths(p) == Tenths(q)
    ensures Abs(p - q) <= 0.1
  {
  }

  /** The default label tells tenths apart: two percentages render the same
      text exactly when they have the same tenths. */
  lemma PercentLabelSameTenths(p: real, q: real)
    requires 0.0 <= p && 0.0 <= q
    ensures PercentLabel(p) == PercentLabel(q) <==> Tenths(p) == Tenths(q)
  {
    var t, u := Tenths(p), Tenths(q);
    var s, r := PercentLabel(p), PercentLabel(q);
    if s == r {
      assert s[..|s| - 3] == NatToString(t / 10);
      assert r[..|r| - 3] == NatToString(u / 10);
      DigitsValueOfNat(t / 10);
      DigitsValueOfNat(u / 10);
      assert s[|s| - 2] == DigitChar(t % 10);
      assert r[|r| - 2] == DigitChar(u % 10);
    }
  }

  /** With default labels and no new title, the gauge is redrawn exactly when
      the shown tenths change: a move within the same tenths is ignored. */
  lemma DefaultLabelFollowsTenths(g: Gauge, percentage: real)
    requires 0.0 <= g.percentage <= 100.0 && g.caption == PercentLabel(g.percentage)
    ensures SetGauge(g, percentage, None, None).1 <==> Tenths(Clamp(percentage)) != Tenths(g.percentage)
  {
    PercentLabelSameTenths(Clamp(percentage), g.percentage);
    if Tenths(Clamp(percentage)) == Tenths(g.percentage) {
      SameTenthsClose(Clamp(percentage), g.percentage);
    }
  }

  /** 50.0 and then 50.04, both shown as "50.0%": nothing changes. */
  lemma SameTextNoRedrawExample()
    ensures SetGauge(Gauge(50.0, "50.0%", "CPU"), 50.04, None, None) == (Gauge(50.0, "50.0%", "CPU"), false)
  {
    assert Tenths(50.04) == 500;
    assert PercentLabel(50.04) == "50.0%";
  }

  /** The colour bands partition the percentages: green below 70, amber from
      70 below 85, red from 85. */
  lemma BandsPartition(p: real)
    ensures BandOf(p) == Green <==> p < 70.0
    ensures BandOf(p) == Amber <==> 70.0 <= p < 85.0
    ensures BandOf(p) == Red <==> p >= 85.0
  {
  }

  /** The history stays within its capacity and within 0..100. */
  lemma PushedKeepsBound(points: seq<real>, value: real, capacity: nat)
    requires |points| <= capacity
    requires forall i | 0 <= i < |points| :: 0.0 <= points[i] <= 100.0
    ensures |Pushed(points, value, capacity)| <= capacity
    ensures forall i | 0 <= i < |Pushed(points, value, capacity)| :: 0.0 <= Pushed(points, value, capacity)[i] <= 100.0
  {
  }

  /** With room for at least one point, the clamped value becomes the newest
      point, and the older points keep their order with at most the oldest
      one dropped. */
  lemma PushedIsFifo(points: seq<real>, value: real, capacity: nat)
    requires 0 < capacity && |points| <= capacity
    ensures var r := Pushed(points, value, capacity);
      && |r| > 0 && r[|r| - 1] == Clamp(value)
      && (|points| < capacity ==> r == points + [Clamp(value)])
      && (|points| == capacity ==> r == points[1..] + [Clamp(value)])
  {
    if |points| == capacity {
      assert (points + [Clamp(value)])[1..] == points[1..] + [Clamp(value)];
    }
  }

  /** Pushing values one after another, from an empty history. */
  function PushAll(points: seq<real>, values: seq<real>, capacity: nat): seq<real>
    decreases |values|
  {
    if |values| == 0 then points
    else PushAll(Pushed(points, values[0], capacity), values[1..], capacity)
  }

  /** The clamped values, in order. */
  function Clamped(values: seq<real>): seq<real> {
    if |values| == 0 then [] else [Clamp(values[0])] + Clamped(values[1..])
  }

  /** Each value is clamped in place. */
  lemma {:induction false} ClampedPointwise(values: seq<real>)
    ensures |Clamped(values)| == |values|
    ensures forall i | 0 <= i < |values| :: Clamped(values)[i] == Clamp(values[i])
  {
    if |values| > 0 {
      ClampedPointwise(values[1..]);
    }
  }

  /** After any run of additions the history is the newest `capacity` of all
      the clamped values, in the order they came. */
  lemma {:induction false} HistoryIsNewestValues(points: seq<real>, values: seq<real>, capacity: nat)
    requires |points| <= capacity
    ensures PushAll(points, values, capacity) == LastN(points + Clamped(values), capacity)
    decreases |values|
  {
    if |values| == 0 {
      assert points + Clamped(values) == points;
    } else {
      var appended := points + [Clamp(values[0])];
      var next := Pushed(points, values[0], capacity);
      assert PushAll(points, values, capacity) == PushAll(next, values[1..], capacity);
      PushedIsLastN(points, values[0], capacity);
      ClampedCons(points, values);
      HistoryIsNewestValues(next, values[1..], capacity);
      LastNAppend(appended, Clamped(values[1..]), capacity);
    }
  }

  /** The clamped values after a first one. */
  lemma ClampedCons(points: seq<real>, values: seq<real>)
    requires |values| > 0
    ensures (points + [Clamp(values[0])]) + Clamped(values[1..]) == points + Clamped(values)
  {
    var c := [Clamp(values[0])];
    var rest := Clamped(values[1..]);
    assert Clamped(values) == c + rest;
    AppendAssociates(points, c, rest);
  }

  lemma AppendAssociates(a: seq<real>, b: seq<real>, c: seq<real>)
    ensures (a + b) + c == a + (b + c)
  {
  }

  /** One push keeps the newest `capacity` points. */
  lemma PushedIsLastN(points: seq<real>, value: real, capacity: nat)
    requires |points| <= capacity
    ensures Pushed(points, value, capacity) == LastN(points + [Clamp(value)], capacity)
  {
  }
}
