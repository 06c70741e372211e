/** An optional value: a state slot that may be null, a field a record
    spread may not have set yet, an argument that may be left out. */
module Optional {
  datatype Option<+T> = None | Some(value: T)
}

/** Values shared by several screens and hooks of the cart dashboard. */
module Common {

  /** A cart position as the map and session code reads it: exact
      coordinates and a millisecond timestamp. */
  datatype Position = Position(x: real, y: real, timestamp: int)

  datatype Severity = Low | Medium | High

  /** A detected obstacle, drawn by the live map at its position. */
  datatype Obstacle = Obstacle(position: Position, severity: Severity, timestamp: int)

  /** A sensor reading as the sensor hook produces it and the gauges and
      charts consume it: the timestamp is a millisecond count and the
      reading carries a battery level. */
  datatype SensorSample = SensorSample(temperature: real, humidity: real, batteryLevel: real, timestamp: int)

  function DigitChar(d: nat): (c: char)
    requires d < 10
    ensures '0' <= c <= '9'
    ensures c as int - '0' as int == d
  {
    ['0', '1', '2', '3', '4', '5', '6', '7', '8', '9'][d]
  }

  /** Decimal rendering of a natural number, as a template literal prints it. */
  function NatToString(n: nat): (s: string)
    ensures |s| >= 1
    ensures forall i :: 0 <= i < |s| ==> '0' <= s[i] <= '9'
    decreases n
  {
    if n < 10 then [DigitChar(n)] else NatToString(n / 10) + [DigitChar(n % 10)]
  }

  /** The number a string of decimal digits stands for, most significant first. */
  function DigitsValue(s: string): nat
    requires forall i :: 0 <= i < |s| ==> '0' <= s[i] <= '9'
  {
    if |s| == 0 then 0
    else DigitsValue(s[..|s| - 1]) * 10 + (s[|s| - 1] as int - '0' as int)
  }

  /** The rendering reads back as the number it renders. */
  lemma {:induction false} NatToStringValue(n: nat)
    ensures DigitsValue(NatToString(n)) == n
  {
    var s := NatToString(n);
    if n >= 10 {
      NatToStringValue(n / 10);
      assert s[..|s| - 1] == NatToString(n / 10);
    }
  }

  /** Distinct numbers render as distinct strings. */
  lemma NatToStringInjective(a: nat, b: nat)
    requires a != b
    ensures NatToString(a) != NatToString(b)
  {
    NatToStringValue(a);
    NatToStringValue(b);
  }
}

/** The colour constants of the theme that the modelled components use. */
module Theme {
  const Primary := "#2D5016"
  const Success := "#22C55E"
  const Warning := "#F59E0B"
  const Error := "#EF4444"
  const Info := "#3B82F6"
  const Gray500 := "#6B7280"
}
