/** Readout of one sensor series (front/components/SensorChart.tsx). */
module SensorChart {
  import opened Common
  import opened Stats
  import Theme

  datatype ChartType = TemperatureChart | HumidityChart | BatteryChart

  /** The field of a sample the chart plots. */
  function GetValue(t: ChartType, item: SensorSample): (v: real)
    ensures t == TemperatureChart ==> v == item.temperature
    ensures t == HumidityChart ==> v == item.humidity
    ensures t == BatteryChart ==> v == item.batteryLevel
  {
    match t
    case TemperatureChart => item.temperature
    case HumidityChart => item.humidity
    case BatteryChart => item.batteryLevel
  }

  /** Degrees Celsius for temperature, percent for humidity and battery. */
  function GetUnit(t: ChartType): (u: string)
    ensures u == "°C" <==> t == TemperatureChart
    ensures u == "%" <==> t != TemperatureChart
  {
    match t
    case TemperatureChart => "°C"
    case HumidityChart => "%"
    case BatteryChart => "%"
  }

  /** Warning for temperature, info for humidity, success for battery. */
  function GetColor(t: ChartType): (c: string)
    ensures c == Theme.Warning <==> t == TemperatureChart
    ensures c == Theme.Info <==> t == HumidityChart
    ensures c == Theme.Success <==> t == BatteryChart
  {
    match t
    case TemperatureChart => Theme.Warning
    case HumidityChart => Theme.Info
    case BatteryChart => Theme.Success
  }

  /** `data.map(getValue)`. */
  function Values(t: ChartType, data: seq<SensorSample>): (vs: seq<real>)
    ensures |vs| == |data|
    ensures forall i :: 0 <= i < |data| ==> vs[i] == GetValue(t, data[i])
  {
    seq(|data|, i requires 0 <= i < |data| => GetValue(t, data[i]))
  }

  /** The newest sample's value, or 0 for an empty series. */
  function GetCurrentValue(t: ChartType, data: seq<SensorSample>): (v: real)
    ensures |data| == 0 ==> v == 0.0
    ensures |data| > 0 ==> v == GetValue(t, data[|data| - 1])
  {
    if |data| == 0 then 0.0 else GetValue(t, data[|data| - 1])
  }

  /** The displayed range: 0 to 100 for an empty series, otherwise the
      smallest and largest value, both attained. */
  function GetMinMax(t: ChartType, data: seq<SensorSample>): (r: (real, real))
    ensures |data| == 0 ==> r == (0.0, 100.0)
    ensures forall i :: 0 <= i < |data| ==> r.0 <= GetValue(t, data[i]) <= r.1
    ensures |data| > 0 ==> exists i :: 0 <= i < |data| && GetValue(t, data[i]) == r.0
    ensures |data| > 0 ==> exists j :: 0 <= j < |data| && GetValue(t, data[j]) == r.1
  {
    if |data| == 0 then (0.0, 100.0)
    else
      var vs := Values(t, data);
      (Min(vs), Max(vs))
  }

  /** The current value of a non-empty series lies within the displayed range. */
  lemma CurrentWithinRange(t: ChartType, data: seq<SensorSample>)
    requires |data| > 0
    ensures GetMinMax(t, data).0 <= GetCurrentValue(t, data) <= GetMinMax(t, data).1
  {
    assert GetCurrentValue(t, data) == GetValue(t, data[|data| - 1]);
  }
}
