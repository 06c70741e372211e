/** The circular temperature/humidity gauge (front/components/TemperatureHumidityGauge.tsx). */
module Gauge {
  import opened Common
  import Theme

  datatype Metric = Temperature | Humidity

  function Toggle(m: Metric): (r: Metric)
    ensures r != m
  {
    if m == Temperature then Humidity else Temperature
  }

  /** Switching twice restores the metric shown. */
  lemma ToggleTwice(m: Metric)
    ensures Toggle(Toggle(m)) == m
  {
  }

  /** The fields of the last sample that the gauge reads. */
  datatype Reading = Reading(temperature: real, humidity: real)

  /** The last sample, or a zero reading when there is none. */
  function LastReading(data: seq<SensorSample>): (r: Reading)
    ensures |data| == 0 ==> r == Reading(0.0, 0.0)
    ensures |data| > 0 ==> r == Reading(data[|data| - 1].temperature, data[|data| - 1].humidity)
  {
    if |data| == 0 then Reading(0.0, 0.0)
    else Reading(data[|data| - 1].temperature, data[|data| - 1].humidity)
  }

  /** The reading of the metric shown. */
  function Value(m: Metric, r: Reading): (v: real)
    ensures m == Temperature ==> v == r.temperature
    ensures m == Humidity ==> v == r.humidity
  {
    if m == Temperature then r.temperature else r.humidity
  }

  /** Degrees Celsius for temperature, percent for humidity. */
  function Unit(m: Metric): (u: string)
    ensures u == "°C" <==> m == Temperature
    ensures u == "%" <==> m == Humidity
  {
    match m
    case Temperature => "°C"
    case Humidity => "%"
  }

  /** The gauge's scale: [10, 40] for temperature, [20, 100] for humidity. */
  function RangeMin(m: Metric): (lo: real)
    ensures m == Temperature ==> lo == 10.0
    ensures m == Humidity ==> lo == 20.0
  {
    if m == Temperature then 10.0 else 20.0
  }

  function RangeMax(m: Metric): (hi: real)
    ensures m == Temperature ==> hi == 40.0
    ensures m == Humidity ==> hi == 100.0
    ensures hi > RangeMin(m)
  {
    if m == Temperature then 40.0 else 100.0
  }

  /** The share of the scale filled, clamped to [0, 1]. */
  function Percentage(m: Metric, value: real): (p: real)
    ensures 0.0 <= p <= 1.0
    ensures value <= RangeMin(m) ==> p == 0.0
    ensures value >= RangeMax(m) ==> p == 1.0
    ensures RangeMin(m) < value < RangeMax(m) ==> p * (RangeMax(m) - RangeMin(m)) == value - RangeMin(m)
  {
    var lo, hi := RangeMin(m), RangeMax(m);
    var raw := (value - lo) / (hi - lo);
    var atLeastZero := if raw > 0.0 then raw else 0.0;
    if atLeastZero < 1.0 then atLeastZero else 1.0
  }

  /** Unfilled arc length, for a circumference supplied by the caller. */
  function DashOffset(circumference: real, m: Metric, value: real): (d: real)
    ensures circumference > 0.0 ==> 0.0 <= d <= circumference
    ensures value <= RangeMin(m) ==> d == circumference
    ensures value >= RangeMax(m) ==> d == 0.0
    ensures RangeMin(m) < value < RangeMax(m) ==> d * (RangeMax(m) - RangeMin(m)) == circumference * (RangeMax(m) - value)
  {
    var p := Percentage(m, value);
    var lo, hi := RangeMin(m), RangeMax(m);
    assert lo < value < hi ==> (1.0 - p) * (hi - lo) == hi - value;
    assert lo < value < hi ==> circumference * (1.0 - p) * (hi - lo) == circumference * (hi - value);
    var rest := 1.0 - p;
    assert 0.0 <= rest <= 1.0;
    assert circumference > 0.0 ==> 0.0 * circumference <= rest * circumference <= 1.0 * circumference;
    circumference * rest
  }

  /** A display colour and the two stops of the arc's gradient. */
  datatype Palette = Palette(color: string, gradientStart: string, gradientEnd: string)

  const Cool := Palette(Theme.Info, "#6DD5FA", "#2980B9")
  const Hot := Palette(Theme.Error, "#FF6E7F", "#B31217")
  const Warm := Palette(Theme.Warning, "#FBD786", "#f7797d")
  const Fresh := Palette(Theme.Success, "#56ab2f", "#a8e063")

  /** The colour chain of the gauge: for temperature below 15 cool, above 30
      hot, otherwise warm; for humidity below 30 warm, above 70 hot,
      otherwise fresh. */
  method Colors(m: Metric, value: real) returns (color: string, gradientStart: string, gradientEnd: string)
    ensures m == Temperature && value < 15.0 ==> Palette(color, gradientStart, gradientEnd) == Cool
    ensures m == Temperature && value > 30.0 ==> Palette(color, gradientStart, gradientEnd) == Hot
    ensures m == Temperature && 15.0 <= value <= 30.0 ==> Palette(color, gradientStart, gradientEnd) == Warm
    ensures m == Humidity && value < 30.0 ==> Palette(color, gradientStart, gradientEnd) == Warm
    ensures m == Humidity && value > 70.0 ==> Palette(color, gradientStart, gradientEnd) == Hot
    ensures m == Humidity && 30.0 <= value <= 70.0 ==> Palette(color, gradientStart, gradientEnd) == Fresh
  {
    color := Theme.Info;
    gradientStart := "#6DD5FA";
    gradientEnd := "#2980B9";
    if m == Temperature {
      if value < 15.0 {
        color := Theme.Info;
        gradientStart := "#6DD5FA";
        gradientEnd := "#2980B9";
      } else if value > 30.0 {
        color := Theme.Error;
        gradientStart := "#FF6E7F";
        gradientEnd := "#B31217";
      } else {
        color := Theme.Warning;
        gradientStart := "#FBD786";
        gradientEnd := "#f7797d";
      }
    } else {
      if value < 30.0 {
        color := Theme.Warning;
        gradientStart := "#FBD786";
        gradientEnd := "#f7797d";
      } else if value > 70.0 {
        color := Theme.Error;
        gradientStart := "#FF6E7F";
        gradientEnd := "#B31217";
      } else {
        color := Theme.Success;
        gradientStart := "#56ab2f";
        gradientEnd := "#a8e063";
      }
    }
  }

  /** The metric the gauge currently shows; it starts at temperature. */
  class GaugeState {
    var current: Metric

    constructor ()
      ensures current == Temperature
    {
      current := Temperature;
    }

    /** What one render shows for a series: the last sample's value of the
        current metric, its unit, the filled share, the unfilled arc and
        the colours chosen for that value. */
    method Readout(data: seq<SensorSample>, circumference: real)
      returns (value: real, unit: string, percentage: real, dashOffset: real, palette: Palette)
      ensures value == Value(current, LastReading(data))
      ensures |data| > 0 && current == Temperature ==> value == data[|data| - 1].temperature
      ensures |data| > 0 && current == Humidity ==> value == data[|data| - 1].humidity
      ensures unit == Unit(current)
      ensures percentage == Percentage(current, value) && 0.0 <= percentage <= 1.0
      ensures dashOffset == DashOffset(circumference, current, value)
      ensures |data| == 0 ==> value == 0.0 && percentage == 0.0 && dashOffset == circumference
      ensures current == Temperature && value < 15.0 ==> palette == Cool
      ensures current == Temperature && value > 30.0 ==> palette == Hot
      ensures current == Temperature && 15.0 <= value <= 30.0 ==> palette == Warm
      ensures current == Humidity && value < 30.0 ==> palette == Warm
      ensures current == Humidity && value > 70.0 ==> palette == Hot
      ensures current == Humidity && 30.0 <= value <= 70.0 ==> palette == Fresh
      ensures |data| == 0 ==> palette == (if current == Temperature then Cool else Warm)
    {
      var last := LastReading(data);
      value := Value(current, last);
      unit := Unit(current);
      percentage := Percentage(current, value);
      dashOffset := circumference * (1.0 - percentage);
      var color, gradientStart, gradientEnd := Colors(current, value);
      palette := Palette(color, gradientStart, gradientEnd);
    }

    method SwitchMetric()
      modifies this
      ensures current == Toggle(old(current))
      ensures current != old(current)
    {
      current := Toggle(current);
    }
  }
}
