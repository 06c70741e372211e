/** Geometry and statistics helpers of the dashboard (front/utils/calculations.ts). */
module Calculations {
  import opened Optional
  import opened Common
  import opened Stats

  // ---------------------------------------------------------------------------
  // Shoelace area of a path read as a closed polygon
  // ---------------------------------------------------------------------------

  /** Index of the successor of point i, the last point wrapping to the first. */
  function Next(n: nat, i: nat): (j: nat)
    requires i < n
    ensures j < n
    ensures j == if i + 1 < n then i + 1 else 0
  {
    (i + 1) % n
  }

  /** Cross product of point i with its successor. */
  function ShoelaceTerm(path: seq<Position>, i: nat): real
    requires i < |path|
  {
    var j := Next(|path|, i);
    path[i].x * path[j].y - path[j].x * path[i].y
  }

  /** Sum of the first k cross products, accumulated in index order. */
  function ShoelacePrefix(path: seq<Position>, k: nat): real
    requires k <= |path|
  {
    if k == 0 then 0.0 else ShoelacePrefix(path, k - 1) + ShoelaceTerm(path, k - 1)
  }

  /** The closed shoelace sum over every point of the path. */
  function ShoelaceSum(path: seq<Position>): real
  {
    ShoelacePrefix(path, |path|)
  }

  /** The area the dashboard reports for a path: zero below three points,
      otherwise half the absolute closed shoelace sum. */
  function Area(path: seq<Position>): (a: real)
    ensures a >= 0.0
    ensures |path| < 3 ==> a == 0.0
    ensures |path| >= 3 ==> 2.0 * a == Abs(ShoelaceSum(path))
  {
    if |path| < 3 then 0.0 else Abs(ShoelaceSum(path)) / 2.0
  }

  /** The accumulating loop of the source, proved to compute Area. */
  method CalculateArea(path: seq<Position>) returns (area: real)
    ensures area == Area(path)
    ensures area >= 0.0
  {
    if |path| < 3 {
      return 0.0;
    }
    var acc := 0.0;
    var i := 0;
    while i < |path|
      invariant 0 <= i <= |path|
      invariant acc == ShoelacePrefix(path, i)
    {
      var j := (i + 1) % |path|;
      acc := acc + path[i].x * path[j].y;
      acc := acc - path[j].x * path[i].y;
      i := i + 1;
    }
    area := Abs(acc) / 2.0;
  }

  /** The path with its first point moved to the end. */
  function RotateLeft(path: seq<Position>): (r: seq<Position>)
    requires |path| > 0
    ensures |r| == |path|
  {
    path[1..] + [path[0]]
  }

  lemma {:induction false} RotatedPrefix(path: seq<Position>, k: nat)
    requires |path| > 0
    requires k < |path|
    ensures ShoelacePrefix(RotateLeft(path), k) == ShoelacePrefix(path, k + 1) - ShoelaceTerm(path, 0)
  {
    var r := RotateLeft(path);
    if k > 0 {
      RotatedPrefix(path, k - 1);
      var n := |path|;
      assert Next(n, k - 1) == k;
      var a, b := r[k - 1], r[k];
      assert a == path[k];
      if k < n - 1 {
        assert Next(n, k) == k + 1;
        assert b == path[k + 1];
      } else {
        assert Next(n, k) == 0;
        assert b == path[0];
      }
      assert b == path[Next(n, k)];
      assert ShoelaceTerm(r, k - 1) == a.x * b.y - b.x * a.y;
      assert ShoelaceTerm(r, k - 1) == ShoelaceTerm(path, k);
    }
  }

  /** Closing the path makes the starting point irrelevant: rotating the
      path leaves the shoelace sum, hence the area, unchanged. */
  lemma {:induction false} AreaRotationInvariant(path: seq<Position>)
    requires |path| > 0
    ensures ShoelaceSum(RotateLeft(path)) == ShoelaceSum(path)
    ensures Area(RotateLeft(path)) == Area(path)
  {
    var n := |path|;
    var r := RotateLeft(path);
    RotatedPrefix(path, n - 1);
    assert r[n - 1] == path[0];
    assert r[Next(n, n - 1)] == path[Next(n, 0)];
    assert ShoelaceTerm(r, n - 1) == ShoelaceTerm(path, 0);
  }

  /** The 10 by 10 square traversed as a closed path has area 100. */
  lemma SquareArea()
    ensures Area([Position(0.0, 0.0, 0), Position(0.0, 10.0, 0), Position(10.0, 10.0, 0), Position(10.0, 0.0, 0)]) == 100.0
  {
    var p := [Position(0.0, 0.0, 0), Position(0.0, 10.0, 0), Position(10.0, 10.0, 0), Position(10.0, 0.0, 0)];
    assert ShoelaceSum(p) == -200.0 by {
      assert ShoelacePrefix(p, 1) == 0.0;
      assert ShoelacePrefix(p, 2) == -100.0;
      assert ShoelacePrefix(p, 3) == -200.0;
    }
  }

  /** The open triangle (0,0),(4,0),(4,3) is closed by the wrap-around: area 6. */
  lemma TriangleArea()
    ensures Area([Position(0.0, 0.0, 0), Position(4.0, 0.0, 0), Position(4.0, 3.0, 0)]) == 6.0
  {
    var p := [Position(0.0, 0.0, 0), Position(4.0, 0.0, 0), Position(4.0, 3.0, 0)];
    assert ShoelaceSum(p) == 12.0 by {
      assert ShoelacePrefix(p, 1) == 0.0;
      assert ShoelacePrefix(p, 2) == 12.0;
    }
  }

  // ---------------------------------------------------------------------------
  // Session durations
  // ---------------------------------------------------------------------------

  /** Whole minutes from start to the end time, or to now when the end time
      is missing or zero (a zero end time is falsy in the source). */
  function SessionDuration(startTime: int, endTime: Option<int>, now: int): (minutes: int)
    ensures var end := if endTime.Some? && endTime.value != 0 then endTime.value else now;
            minutes * 60000 <= end - startTime < (minutes + 1) * 60000
    ensures var end := if endTime.Some? && endTime.value != 0 then endTime.value else now;
            end >= startTime ==> minutes >= 0
  {
    var end := if endTime.Some? && endTime.value != 0 then endTime.value else now;
    (end - startTime) / 60000
  }

  /** The timing fields that the working-hours total reads from a session. */
  datatype SessionTimes = SessionTimes(startTime: int, endTime: Option<int>)

  /** A session contributes only when its end time is present and truthy. */
  predicate Finished(s: SessionTimes)
  {
    s.endTime.Some? && s.endTime.value != 0
  }

  /** Minutes over the finished sessions, folded left to right. */
  function FinishedMinutes(sessions: seq<SessionTimes>): int
  {
    if |sessions| == 0 then 0
    else
      var last := sessions[|sessions| - 1];
      FinishedMinutes(sessions[..|sessions| - 1])
        + (if Finished(last) then SessionDuration(last.startTime, last.endTime, 0) else 0)
  }

  /** Working hours: the finished sessions' minutes divided by 60. */
  function WorkingHours(sessions: seq<SessionTimes>): (hours: real)
    ensures hours * 60.0 == FinishedMinutes(sessions) as real
  {
    (FinishedMinutes(sessions) as real) / 60.0
  }

  /** No finished session ending before it started means no negative total. */
  lemma {:induction false} WorkingHoursNonNegative(sessions: seq<SessionTimes>)
    requires forall i :: 0 <= i < |sessions| && Finished(sessions[i]) ==> sessions[i].endTime.value >= sessions[i].startTime
    ensures FinishedMinutes(sessions) >= 0
    ensures WorkingHours(sessions) >= 0.0
  {
    if |sessions| > 0 {
      var p := sessions[..|sessions| - 1];
      assert forall i :: 0 <= i < |p| ==> p[i] == sessions[i];
      WorkingHoursNonNegative(p);
    }
  }

  /** A session still running (no truthy end time) adds nothing. */
  lemma UnfinishedSessionAddsNothing(sessions: seq<SessionTimes>, s: SessionTimes)
    requires !Finished(s)
    ensures WorkingHours(sessions + [s]) == WorkingHours(sessions)
  {
    assert (sessions + [s])[..|sessions|] == sessions;
  }

  /** A finished session adds its whole minutes to the total. */
  lemma FinishedSessionAdds(sessions: seq<SessionTimes>, s: SessionTimes)
    requires Finished(s)
    ensures FinishedMinutes(sessions + [s]) == FinishedMinutes(sessions) + (s.endTime.value - s.startTime) / 60000
    ensures WorkingHours(sessions + [s]) * 60.0 == WorkingHours(sessions) * 60.0 + ((s.endTime.value - s.startTime) / 60000) as real
  {
    assert (sessions + [s])[..|sessions|] == sessions;
  }

  // ---------------------------------------------------------------------------
  // Progress of a cutting pass
  // ---------------------------------------------------------------------------

  /** Share of the total path already cut, in percent. */
  function CompletionPercentage(completedPath: seq<Position>, totalPath: seq<Position>): (pct: real)
    ensures |totalPath| == 0 ==> pct == 0.0
    ensures |totalPath| > 0 ==> pct * (|totalPath| as real) == 100.0 * (|completedPath| as real)
    ensures |completedPath| <= |totalPath| ==> 0.0 <= pct <= 100.0
    ensures |totalPath| > 0 && |completedPath| == |totalPath| ==> pct == 100.0
  {
    if |totalPath| == 0 then 0.0
    else
      var c, t := |completedPath| as real, |totalPath| as real;
      ShareBounds(c, t);
      (c / t) * 100.0
  }

  lemma ShareBounds(c: real, t: real)
    requires c >= 0.0 && t > 0.0
    ensures c / t * t == c
    ensures c <= t ==> 0.0 <= c / t <= 1.0
  {
    if c <= t {
      QuotientBetween(c, t, 0.0, 1.0);
    }
  }

  /** Estimated milliseconds left: three minutes per square metre of area,
      scaled by the share of the path not yet cut. */
  function EstimateRemainingTime(completedPath: seq<Position>, totalPath: seq<Position>, area: real): (ms: real)
    ensures |completedPath| == 0 || |totalPath| == 0 ==> ms == area * 180000.0
    ensures |totalPath| > 0 && |completedPath| == |totalPath| ==> ms == 0.0
    ensures area >= 0.0 && |completedPath| <= |totalPath| ==> 0.0 <= ms <= area * 180000.0
    ensures |totalPath| > 0 ==> ms * (|totalPath| as real) == area * 180000.0 * ((|totalPath| - |completedPath|) as real)
  {
    var pct := CompletionPercentage(completedPath, totalPath);
    var remaining := 100.0 - pct;
    var total := area * 3.0 * 60.0 * 1000.0;
    RemainingShare(total, pct, |completedPath| as real, |totalPath| as real);
    (total * remaining) / 100.0
  }

  /** The estimate scaled back by the path length: total times the share not cut. */
  lemma RemainingShare(total: real, pct: real, c: real, t: real)
    requires c >= 0.0 && t >= 0.0
    requires t == 0.0 ==> pct == 0.0
    requires t > 0.0 ==> pct * t == 100.0 * c
    requires c <= t ==> 0.0 <= pct <= 100.0
    ensures c == 0.0 || t == 0.0 ==> total * (100.0 - pct) / 100.0 == total
    ensures t > 0.0 && c == t ==> total * (100.0 - pct) / 100.0 == 0.0
    ensures total >= 0.0 && c <= t ==> 0.0 <= total * (100.0 - pct) / 100.0 <= total
    ensures t > 0.0 ==> total * (100.0 - pct) / 100.0 * t == total * (t - c)
  {
    var ms := total * (100.0 - pct) / 100.0;
    if t > 0.0 {
      assert (100.0 - pct) * t == 100.0 * (t - c);
      assert ms * t == total * ((100.0 - pct) * t) / 100.0;
      if c == 0.0 {
        assert pct * t == 0.0;
        assert pct == 0.0;
      }
      if c == t {
        assert pct * t == 100.0 * t;
        assert pct == 100.0;
      }
    }
    if total >= 0.0 && c <= t {
      assert 0.0 <= 100.0 - pct <= 100.0;
      assert total * (100.0 - pct) <= total * 100.0;
    }
  }

  // ---------------------------------------------------------------------------
  // Rendering choices
  // ---------------------------------------------------------------------------

  /** The two shapes `formatDuration` renders: `{m}m` or `{h}h {m}m`. */
  datatype Duration = MinutesOnly(minutes: int) | HoursAndMinutes(hours: int, minutes: int)

  function FormatDuration(minutes: int): (d: Duration)
    ensures minutes < 60 <==> d.MinutesOnly?
    ensures d.MinutesOnly? ==> d.minutes == minutes
    ensures d.HoursAndMinutes? ==> d.hours >= 1 && 0 <= d.minutes < 60 && d.hours * 60 + d.minutes == minutes
  {
    if minutes < 60 then MinutesOnly(minutes) else HoursAndMinutes(minutes / 60, minutes % 60)
  }

  datatype AreaUnit = SquareMetres | SquareKilometres

  /** Square metres in one unit. */
  function MetresPerUnit(u: AreaUnit): real
  {
    match u
    case SquareMetres => 1.0
    case SquareKilometres => 1000000.0
  }

  /** The number `formatArea` prints and the unit it prints after it. */
  datatype AreaText = AreaText(amount: real, unit: AreaUnit)

  /** `formatArea` as written: from 1000 m² on it divides by 1000 and labels the result km². */
  function FormatArea(area: real): (t: AreaText)
    ensures area < 1000.0 ==> t == AreaText(area, SquareMetres)
    ensures area >= 1000.0 ==> t.unit == SquareKilometres && t.amount * 1000.0 == area
  {
    if area < 1000.0 then AreaText(area, SquareMetres) else AreaText(area / 1000.0, SquareKilometres)
  }

  /** 1000 m² is displayed as 1 km², a thousand times the actual area. */
  lemma FormatAreaOverstatesKilometres()
    ensures FormatArea(1000.0) == AreaText(1.0, SquareKilometres)
    ensures FormatArea(1000.0).amount * MetresPerUnit(FormatArea(1000.0).unit) == 1000.0 * 1000.0
  {
  }

  /** `formatArea` with the unit conversion it evidently intends: the same
      threshold, dividing by the million square metres of a km². */
  function FormatAreaCorrected(area: real): (t: AreaText)
    ensures area < 1000.0 <==> t.unit == SquareMetres
    ensures t.amount * MetresPerUnit(t.unit) == area
  {
    if area < 1000.0 then AreaText(area, SquareMetres) else AreaText(area / 1000000.0, SquareKilometres)
  }

  // ---------------------------------------------------------------------------
  // Averages over all samples
  // ---------------------------------------------------------------------------

  function Temperatures(data: seq<SensorSample>): (r: seq<real>)
    ensures |r| == |data|
    ensures forall i :: 0 <= i < |data| ==> r[i] == data[i].temperature
  {
    seq(|data|, i requires 0 <= i < |data| => data[i].temperature)
  }

  function Humidities(data: seq<SensorSample>): (r: seq<real>)
    ensures |r| == |data|
    ensures forall i :: 0 <= i < |data| ==> r[i] == data[i].humidity
  {
    seq(|data|, i requires 0 <= i < |data| => data[i].humidity)
  }

  /** Mean temperature over the samples, zero when there are none. */
  function AverageTemperature(data: seq<SensorSample>): (avg: real)
    ensures |data| == 0 ==> avg == 0.0
  {
    Mean(Temperatures(data))
  }

  /** Mean humidity over the samples, zero when there are none. */
  function AverageHumidity(data: seq<SensorSample>): (avg: real)
    ensures |data| == 0 ==> avg == 0.0
  {
    Mean(Humidities(data))
  }

  /** The average temperature times the sample count is the summed temperature. */
  lemma AverageTemperatureIsMean(data: seq<SensorSample>)
    requires |data| > 0
    ensures AverageTemperature(data) * (|data| as real) == Sum(Temperatures(data))
  {
    MeanTimesLength(Temperatures(data));
  }

  lemma AverageHumidityIsMean(data: seq<SensorSample>)
    requires |data| > 0
    ensures AverageHumidity(data) * (|data| as real) == Sum(Humidities(data))
  {
    MeanTimesLength(Humidities(data));
  }

  /** When every sample's temperature lies in [lo, hi] so does the average;
      taking lo and hi as the coldest and warmest sample, the average lies
      between them. */
  lemma AverageTemperatureWithin(data: seq<SensorSample>, lo: real, hi: real)
    requires |data| > 0
    requires forall i :: 0 <= i < |data| ==> lo <= data[i].temperature <= hi
    ensures lo <= AverageTemperature(data) <= hi
  {
    MeanWithin(Temperatures(data), lo, hi);
  }

  lemma AverageHumidityWithin(data: seq<SensorSample>, lo: real, hi: real)
    requires |data| > 0
    requires forall i :: 0 <= i < |data| ==> lo <= data[i].humidity <= hi
    ensures lo <= AverageHumidity(data) <= hi
  {
    MeanWithin(Humidities(data), lo, hi);
  }

  /** The average lies between the coldest and the warmest sample. */
  lemma AverageTemperatureBetweenExtremes(data: seq<SensorSample>)
    requires |data| > 0
    ensures Min(Temperatures(data)) <= AverageTemperature(data) <= Max(Temperatures(data))
  {
    var t := Temperatures(data);
    var lo, hi := Min(t), Max(t);
    assert forall i :: 0 <= i < |data| ==> lo <= t[i] <= hi;
    AverageTemperatureWithin(data, lo, hi);
  }

  /** The average lies between the driest and the most humid sample. */
  lemma AverageHumidityBetweenExtremes(data: seq<SensorSample>)
    requires |data| > 0
    ensures Min(Humidities(data)) <= AverageHumidity(data) <= Max(Humidities(data))
  {
    var h := Humidities(data);
    var lo, hi := Min(h), Max(h);
    assert forall i :: 0 <= i < |data| ==> lo <= h[i] <= hi;
    AverageHumidityWithin(data, lo, hi);
  }
}
