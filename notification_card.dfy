/** Rendering choices of one notification card (front/components/NotificationCard.tsx). */
module NotificationCard {
  import Theme
  import opened Notifications

  datatype IconShape = AlertTriangle | BatteryIcon | Wrench | CheckCircle | Wifi

  /** The icon for each kind; kinds the card does not know get the alert triangle. */
  function Icon(k: Kind): (i: IconShape)
    ensures k.Other? ==> i == AlertTriangle
    ensures i == AlertTriangle <==> k.ObstacleKind? || k.Other?
    ensures i == BatteryIcon <==> k.LowBattery?
    ensures i == Wrench <==> k.Maintenance?
    ensures i == CheckCircle <==> k.SessionComplete?
    ensures i == Wifi <==> k.Connection?
  {
    match k
    case ObstacleKind => AlertTriangle
    case LowBattery => BatteryIcon
    case Maintenance => Wrench
    case SessionComplete => CheckCircle
    case Connection => Wifi
    case Other(_) => AlertTriangle
  }

  function IconColor(p: Priority): string
  {
    match p
    case High => Theme.Error
    case Medium => Theme.Warning
    case Low => Theme.Info
  }

  function BorderColor(p: Priority): string
  {
    match p
    case High => Theme.Error
    case Medium => Theme.Warning
    case Low => Theme.Info
  }

  /** The border colour with the `10` alpha suffix appended. */
  function BackgroundColor(p: Priority): (c: string)
    ensures c == BorderColor(p) + "10"
  {
    match p
    case High => Theme.Error + "10"
    case Medium => Theme.Warning + "10"
    case Low => Theme.Info + "10"
  }

  /** The icon is drawn in the colour of the card's border. */
  lemma IconMatchesBorder(p: Priority)
    ensures IconColor(p) == BorderColor(p)
  {
  }

  /** Whole minutes elapsed, rounded down (negative for a future timestamp). */
  function MinutesSince(timestamp: int, now: int): (m: int)
    ensures m * 60000 <= now - timestamp < (m + 1) * 60000
  {
    (now - timestamp) / 60000
  }

  /** The four shapes of the relative time label. */
  datatype TimeLabel = JustNow | MinutesAgo(minutes: int) | HoursAgo(hours: int) | OnDate(timestamp: int)

  function FormatTime(timestamp: int, now: int): (l: TimeLabel)
    ensures l.JustNow? <==> MinutesSince(timestamp, now) < 1
    ensures l.MinutesAgo? <==> 1 <= MinutesSince(timestamp, now) < 60
    ensures l.MinutesAgo? ==> l.minutes == MinutesSince(timestamp, now)
    ensures l.HoursAgo? <==> 60 <= MinutesSince(timestamp, now) < 24 * 60
    ensures l.HoursAgo? ==> 1 <= l.hours <= 23
    ensures l.HoursAgo? ==> l.hours * 60 <= MinutesSince(timestamp, now) < (l.hours + 1) * 60
    ensures l.OnDate? <==> MinutesSince(timestamp, now) >= 24 * 60
    ensures l.OnDate? ==> l.timestamp == timestamp
  {
    var minutes := MinutesSince(timestamp, now);
    if minutes < 1 then JustNow
    else if minutes < 60 then MinutesAgo(minutes)
    else
      var hours := minutes / 60;
      if hours < 24 then HoursAgo(hours) else OnDate(timestamp)
  }

  /** A timestamp in the future is shown as just now. */
  lemma FutureIsJustNow(timestamp: int, now: int)
    requires timestamp > now
    ensures FormatTime(timestamp, now) == JustNow
  {
  }
}
