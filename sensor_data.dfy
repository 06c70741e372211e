/** The simulated sensor feed and its windowed averages (front/hooks/useSensorData.ts). */
module SensorData {
  import opened Optional
  import opened Common
  import Calculations

  /** Samples kept from the previous buffer before the new one is appended. */
  const Retained: nat := 200

  /** The averaging window used when the caller gives none: one hour in ms. */
  const DefaultTimeRange: int := 3600000

  /** The simulated battery level at clock reading `now`:
      `max(0, 100 - (now % 200000) / 2000)`. The drain stays below 100, so
      the clamp at 0 never applies. */
  function BatteryLevelAt(now: nat): (level: real)
    ensures 0.0 < level <= 100.0
    ensures level == 100.0 - ((now % 200000) as real) / 2000.0
  {
    var drained := ((now % 200000) as real) / 2000.0;
    if 100.0 - drained > 0.0 then 100.0 - drained else 0.0
  }

  /** The sample one interval tick produces from two `Math.random()` draws. */
  function NewSample(temperatureDraw: real, humidityDraw: real, now: nat): (s: SensorSample)
    requires 0.0 <= temperatureDraw < 1.0 && 0.0 <= humidityDraw < 1.0
    ensures 20.0 <= s.temperature < 35.0
    ensures 40.0 <= s.humidity < 70.0
    ensures 0.0 <= s.batteryLevel <= 100.0
    ensures s.timestamp == now
    ensures s.temperature == 20.0 + temperatureDraw * 15.0
    ensures s.humidity == 40.0 + humidityDraw * 30.0
    ensures s.batteryLevel == BatteryLevelAt(now)
  {
    SensorSample(20.0 + temperatureDraw * 15.0, 40.0 + humidityDraw * 30.0, BatteryLevelAt(now), now)
  }

  /** `[...prev.slice(-200), x]`: the newest 200 samples of prev, then x. */
  function BoundedAppend(prev: seq<SensorSample>, x: SensorSample): (r: seq<SensorSample>)
    ensures |r| == (if |prev| < Retained then |prev| else Retained) + 1
    ensures |r| <= Retained + 1
    ensures r[|r| - 1] == x
    ensures r[..|r| - 1] == prev[|prev| - (|r| - 1)..]
    ensures |prev| <= Retained ==> r == prev + [x]
  {
    var keep := if |prev| < Retained then |prev| else Retained;
    prev[|prev| - keep..] + [x]
  }

  datatype Link = Connected | Disconnected

  datatype SensorHealth = SensorHealth(
    ultrasonic: Link,
    gyroscope: Link,
    accelerometer: Link,
    dht11: Link,
    lastChecked: int)

  /** A sensor is reported disconnected when its draw exceeds its threshold. */
  function LinkFor(draw: real, threshold: real): (l: Link)
    ensures l == Disconnected <==> draw > threshold
  {
    if draw > threshold then Disconnected else Connected
  }

  function HealthCheck(ultrasonicDraw: real, gyroscopeDraw: real, accelerometerDraw: real,
                       dht11Draw: real, now: int): (h: SensorHealth)
    ensures h.ultrasonic == Disconnected <==> ultrasonicDraw > 0.95
    ensures h.gyroscope == Disconnected <==> gyroscopeDraw > 0.98
    ensures h.accelerometer == Disconnected <==> accelerometerDraw > 0.97
    ensures h.dht11 == Disconnected <==> dht11Draw > 0.96
    ensures h.lastChecked == now
  {
    SensorHealth(LinkFor(ultrasonicDraw, 0.95), LinkFor(gyroscopeDraw, 0.98),
                 LinkFor(accelerometerDraw, 0.97), LinkFor(dht11Draw, 0.96), now)
  }

  /** `filter(d => d.timestamp > cutoff)`, keeping order. */
  function After(data: seq<SensorSample>, cutoff: int): (r: seq<SensorSample>)
    ensures |r| <= |data|
    ensures forall k :: 0 <= k < |r| ==> r[k].timestamp > cutoff
    ensures forall s :: s in r <==> s in data && s.timestamp > cutoff
  {
    if |data| == 0 then []
    else (if data[0].timestamp > cutoff then [data[0]] else []) + After(data[1..], cutoff)
  }

  /** Filtering distributes over concatenation, so the window keeps every
      qualifying sample as often and in the order it occurs. */
  lemma {:induction false} AfterConcat(a: seq<SensorSample>, b: seq<SensorSample>, cutoff: int)
    ensures After(a + b, cutoff) == After(a, cutoff) + After(b, cutoff)
  {
    if |a| > 0 {
      assert (a + b)[1..] == a[1..] + b;
      AfterConcat(a[1..], b, cutoff);
    } else {
      assert a + b == b;
    }
  }

  /** The cutoff of a window ending at now; an absent range means one hour. */
  function Cutoff(now: int, timeRange: Option<int>): int
  {
    now - (match timeRange case None => DefaultTimeRange case Some(r) => r)
  }

  /** Leaving out the range averages over the last hour. */
  lemma DefaultWindowIsOneHour(now: int)
    ensures Cutoff(now, None) == now - 3600000
  {
  }

  /** Samples strictly newer than the cutoff: the window an average reads. */
  predicate InWindow(s: SensorSample, now: int, timeRange: Option<int>)
  {
    s.timestamp > Cutoff(now, timeRange)
  }

  /** Mean temperature of the samples strictly newer than the cutoff, or 0
      when none qualify. */
  function WindowAverageTemperature(data: seq<SensorSample>, now: int, timeRange: Option<int>): (avg: real)
    ensures avg == Calculations.AverageTemperature(After(data, Cutoff(now, timeRange)))
    ensures (forall k :: 0 <= k < |data| ==> !InWindow(data[k], now, timeRange)) ==> avg == 0.0
  {
    var w := After(data, Cutoff(now, timeRange));
    if |w| == 0 then 0.0
    else Calculations.AverageTemperature(w)
  }

  /** The same window rule applied to humidity. */
  function WindowAverageHumidity(data: seq<SensorSample>, now: int, timeRange: Option<int>): (avg: real)
    ensures avg == Calculations.AverageHumidity(After(data, Cutoff(now, timeRange)))
    ensures (forall k :: 0 <= k < |data| ==> !InWindow(data[k], now, timeRange)) ==> avg == 0.0
  {
    var w := After(data, Cutoff(now, timeRange));
    if |w| == 0 then 0.0
    else Calculations.AverageHumidity(w)
  }

  /** If every windowed sample's temperature lies in [lo, hi] and some sample
      is in the window, the windowed average lies in [lo, hi]. */
  lemma WindowTemperatureWithin(data: seq<SensorSample>, now: int, timeRange: Option<int>, lo: real, hi: real)
    requires exists k :: 0 <= k < |data| && InWindow(data[k], now, timeRange)
    requires forall k :: 0 <= k < |data| && InWindow(data[k], now, timeRange) ==> lo <= data[k].temperature <= hi
    ensures lo <= WindowAverageTemperature(data, now, timeRange) <= hi
  {
    var w := After(data, Cutoff(now, timeRange));
    var k :| 0 <= k < |data| && InWindow(data[k], now, timeRange);
    assert data[k] in w;
    forall i | 0 <= i < |w| ensures lo <= w[i].temperature <= hi {
      assert w[i] in data;
    }
    Calculations.AverageTemperatureWithin(w, lo, hi);
  }

  lemma WindowHumidityWithin(data: seq<SensorSample>, now: int, timeRange: Option<int>, lo: real, hi: real)
    requires exists k :: 0 <= k < |data| && InWindow(data[k], now, timeRange)
    requires forall k :: 0 <= k < |data| && InWindow(data[k], now, timeRange) ==> lo <= data[k].humidity <= hi
    ensures lo <= WindowAverageHumidity(data, now, timeRange) <= hi
  {
    var w := After(data, Cutoff(now, timeRange));
    var k :| 0 <= k < |data| && InWindow(data[k], now, timeRange);
    assert data[k] in w;
    forall i | 0 <= i < |w| ensures lo <= w[i].humidity <= hi {
      assert w[i] in data;
    }
    Calculations.AverageHumidityWithin(w, lo, hi);
  }

  /** A sample stamped exactly at the cutoff is outside the window. */
  lemma WindowIsStrict(data: seq<SensorSample>, now: int, timeRange: Option<int>, s: SensorSample)
    requires s.timestamp == Cutoff(now, timeRange)
    ensures s !in After(data, Cutoff(now, timeRange))
  {
  }

  /** The hook's three state slots; random draws and clock readings are
      passed in to the interval step. */
  class SensorFeed {
    var sensorData: seq<SensorSample>
    var currentData: Option<SensorSample>
    var sensorHealth: SensorHealth

    /** The buffer never holds more than the retained samples plus the
        newest; there is a current reading exactly when the buffer is
        non-empty, and it is the buffer's last entry. */
    ghost predicate Valid()
      reads this
    {
      && |sensorData| <= Retained + 1
      && (currentData.Some? <==> |sensorData| > 0)
      && (currentData.Some? ==> sensorData[|sensorData| - 1] == currentData.value)
    }

    constructor (now: int)
      ensures Valid()
      ensures sensorData == [] && currentData == None
      ensures sensorHealth == SensorHealth(Connected, Connected, Connected, Connected, now)
    {
      sensorData := [];
      currentData := None;
      sensorHealth := SensorHealth(Connected, Connected, Connected, Connected, now);
    }

    /** One interval tick: the new sample becomes the current reading and the
        last buffer entry, and the sensor links are re-drawn. */
    method Tick(temperatureDraw: real, humidityDraw: real,
                ultrasonicDraw: real, gyroscopeDraw: real, accelerometerDraw: real, dht11Draw: real,
                now: nat)
      requires Valid()
      requires 0.0 <= temperatureDraw < 1.0 && 0.0 <= humidityDraw < 1.0
      modifies this
      ensures Valid()
      ensures currentData == Some(NewSample(temperatureDraw, humidityDraw, now))
      ensures sensorData == BoundedAppend(old(sensorData), NewSample(temperatureDraw, humidityDraw, now))
      ensures sensorData[|sensorData| - 1] == currentData.value
      ensures sensorHealth == HealthCheck(ultrasonicDraw, gyroscopeDraw, accelerometerDraw, dht11Draw, now)
    {
      var newData := NewSample(temperatureDraw, humidityDraw, now);
      currentData := Some(newData);
      sensorData := BoundedAppend(sensorData, newData);
      sensorHealth := HealthCheck(ultrasonicDraw, gyroscopeDraw, accelerometerDraw, dht11Draw, now);
    }
  }
}
