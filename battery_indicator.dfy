/** The battery level widget (front/components/BatteryIndicator.tsx). */
module BatteryIndicator {
  import opened Common
  import Theme

  datatype Icon = BatteryLow | BatteryCharging | BatteryFull

  /** The colour and icon the widget shows; the icon is drawn in that colour. */
  datatype Look = Look(color: string, icon: Icon)

  /** The newest sample's battery level, or 0 when there is no sample. */
  function Level(data: seq<SensorSample>): (level: real)
    ensures |data| == 0 ==> level == 0.0
    ensures |data| > 0 ==> level == data[|data| - 1].batteryLevel
  {
    if |data| > 0 then data[|data| - 1].batteryLevel else 0.0
  }

  /** Below 20 the error look, below 50 the warning look, full otherwise. */
  function LookFor(level: real): (l: Look)
    ensures level < 20.0 <==> l == Look(Theme.Error, BatteryLow)
    ensures 20.0 <= level < 50.0 <==> l == Look(Theme.Warning, BatteryCharging)
    ensures level >= 50.0 <==> l == Look(Theme.Success, BatteryFull)
  {
    if level < 20.0 then Look(Theme.Error, BatteryLow)
    else if level < 50.0 then Look(Theme.Warning, BatteryCharging)
    else Look(Theme.Success, BatteryFull)
  }

  /** Bands ordered from worst to best. */
  function Rank(i: Icon): nat
  {
    match i
    case BatteryLow => 0
    case BatteryCharging => 1
    case BatteryFull => 2
  }

  /** A higher level never shows a worse band. */
  lemma LookMonotone(a: real, b: real)
    requires a <= b
    ensures Rank(LookFor(a).icon) <= Rank(LookFor(b).icon)
  {
  }

  /** With no data the widget shows the low band. */
  lemma EmptyDataShowsLow()
    ensures LookFor(Level([])) == Look(Theme.Error, BatteryLow)
  {
  }
}
