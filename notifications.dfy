/** The in-memory notification list of the dashboard (front/hooks/useNotifications.ts). */
module Notifications {
  import opened Optional

  /** The notification kinds the app raises and the card knows; any other
      kind name is carried as Other. */
  datatype Kind = ObstacleKind | LowBattery | Maintenance | SessionComplete | Connection | Other(name: string)

  datatype Priority = Low | Medium | High

  datatype Notification = Notification(
    id: string,
    kind: Kind,
    title: string,
    message: string,
    timestamp: int,
    read: bool,
    dismissed: bool,
    priority: Priority)

  /** The entry `addNotification` builds; an absent priority means medium.
      The id and the clock reading are supplied by the caller. */
  function NewNotification(id: string, kind: Kind, title: string, message: string,
                           priority: Option<Priority>, now: int): (n: Notification)
    ensures !n.read && !n.dismissed
    ensures n.id == id && n.kind == kind && n.title == title && n.message == message && n.timestamp == now
    ensures priority.None? ==> n.priority == Medium
    ensures priority.Some? ==> n.priority == priority.value
  {
    Notification(id, kind, title, message, now, false, false,
                 match priority case None => Medium case Some(p) => p)
  }

  /** `filter(n => n.id !== id)`. */
  function WithoutId(list: seq<Notification>, id: string): (r: seq<Notification>)
    ensures |r| <= |list|
    ensures forall k :: 0 <= k < |r| ==> r[k].id != id
    ensures forall n :: n in r <==> n in list && n.id != id
  {
    if |list| == 0 then []
    else (if list[0].id != id then [list[0]] else []) + WithoutId(list[1..], id)
  }

  /** Filtering distributes over concatenation, so the survivors keep their order. */
  lemma {:induction false} WithoutIdConcat(a: seq<Notification>, b: seq<Notification>, id: string)
    ensures WithoutId(a + b, id) == WithoutId(a, id) + WithoutId(b, id)
  {
    if |a| > 0 {
      assert (a + b)[1..] == a[1..] + b;
      WithoutIdConcat(a[1..], b, id);
    } else {
      assert a + b == b;
    }
  }

  /** When no entry carries the id the list is returned unchanged. */
  lemma {:induction false} WithoutAbsentId(list: seq<Notification>, id: string)
    requires forall k :: 0 <= k < |list| ==> list[k].id != id
    ensures WithoutId(list, id) == list
  {
    if |list| > 0 {
      WithoutAbsentId(list[1..], id);
      assert [list[0]] + list[1..] == list;
    }
  }

  /** `map(n => n.id === id ? {...n, read: true} : n)`. */
  function MarkedRead(list: seq<Notification>, id: string): (r: seq<Notification>)
    ensures |r| == |list|
    ensures forall k :: 0 <= k < |r| ==> r[k].(read := list[k].read) == list[k]
    ensures forall k :: 0 <= k < |r| ==> r[k].read == (list[k].read || list[k].id == id)
  {
    seq(|list|, k requires 0 <= k < |list| => if list[k].id == id then list[k].(read := true) else list[k])
  }

  /** Marking the same id twice is the same as marking it once. */
  lemma MarkedReadIdempotent(list: seq<Notification>, id: string)
    ensures MarkedRead(MarkedRead(list, id), id) == MarkedRead(list, id)
  {
  }

  predicate Unread(n: Notification)
  {
    !n.read && !n.dismissed
  }

  /** `filter(n => !n.read && !n.dismissed).length`. */
  function UnreadCount(list: seq<Notification>): (c: nat)
    ensures c <= |list|
  {
    if |list| == 0 then 0 else (if Unread(list[0]) then 1 else 0) + UnreadCount(list[1..])
  }

  /** The count is zero exactly when every entry is read or dismissed. */
  lemma {:induction false} UnreadCountZero(list: seq<Notification>)
    ensures UnreadCount(list) == 0 <==> forall k :: 0 <= k < |list| ==> !Unread(list[k])
  {
    if |list| > 0 {
      UnreadCountZero(list[1..]);
      assert forall k :: 1 <= k < |list| ==> list[k] == list[1..][k - 1];
    }
  }

  /** Marking as read never raises the unread count. */
  lemma {:induction false} MarkedReadNeverIncreasesUnread(list: seq<Notification>, id: string)
    ensures UnreadCount(MarkedRead(list, id)) <= UnreadCount(list)
  {
    if |list| > 0 {
      assert MarkedRead(list, id)[1..] == MarkedRead(list[1..], id);
      MarkedReadNeverIncreasesUnread(list[1..], id);
    }
  }

  /** Dismissing never raises the unread count. */
  lemma {:induction false} DismissNeverIncreasesUnread(list: seq<Notification>, id: string)
    ensures UnreadCount(WithoutId(list, id)) <= UnreadCount(list)
  {
    if |list| > 0 {
      DismissNeverIncreasesUnread(list[1..], id);
      UnreadCountConcat(if list[0].id != id then [list[0]] else [], WithoutId(list[1..], id));
    }
  }

  lemma {:induction false} UnreadCountConcat(a: seq<Notification>, b: seq<Notification>)
    ensures UnreadCount(a + b) == UnreadCount(a) + UnreadCount(b)
  {
    if |a| > 0 {
      assert (a + b)[1..] == a[1..] + b;
      UnreadCountConcat(a[1..], b);
    } else {
      assert a + b == b;
    }
  }

  const ObstacleTitle := "Obstáculo detectado"
  const ObstacleMessage := "El carrito encontró un obstáculo en las coordenadas (15.2, 8.7)"
  const LowBatteryTitle := "Advertencia de batería baja"
  const LowBatteryMessage := "El nivel de batería está en 15%. Considera cargar pronto."
  const MaintenanceTitle := "Mantenimiento requerido"
  const MaintenanceMessage := "Se recomienda afilar las cuchillas después de 48 horas de operación."

  /** The hook's state slot. Ids and clock readings, which the source draws
      from `Date.now()` and `Math.random()`, are passed in. */
  class NotificationCenter {
    var notifications: seq<Notification>

    constructor ()
      ensures notifications == []
    {
      notifications := [];
    }

    /** Prepends a fresh unread entry; the previous list follows unchanged. */
    method AddNotification(kind: Kind, title: string, message: string, priority: Option<Priority>,
                           id: string, now: int)
      modifies this
      ensures notifications == [NewNotification(id, kind, title, message, priority, now)] + old(notifications)
      ensures UnreadCount(notifications) == UnreadCount(old(notifications)) + 1
    {
      notifications := [NewNotification(id, kind, title, message, priority, now)] + notifications;
    }

    /** Removes every entry with the id, keeping the others in order. */
    method DismissNotification(id: string)
      modifies this
      ensures notifications == WithoutId(old(notifications), id)
      ensures UnreadCount(notifications) <= UnreadCount(old(notifications))
    {
      DismissNeverIncreasesUnread(notifications, id);
      notifications := WithoutId(notifications, id);
    }

    /** Sets `read` on every entry with the id and changes nothing else. */
    method MarkAsRead(id: string)
      modifies this
      ensures notifications == MarkedRead(old(notifications), id)
      ensures UnreadCount(notifications) <= UnreadCount(old(notifications))
    {
      MarkedReadNeverIncreasesUnread(notifications, id);
      notifications := MarkedRead(notifications, id);
    }

    method ClearAllNotifications()
      modifies this
      ensures notifications == []
      ensures UnreadCount(notifications) == 0
    {
      notifications := [];
    }

    /** Adds the three demonstration entries, obstacle first, so that the list
        then starts with maintenance, low battery and obstacle. */
    method GenerateSampleNotifications(obstacleId: string, obstacleTime: int,
                                       batteryId: string, batteryTime: int,
                                       maintenanceId: string, maintenanceTime: int)
      modifies this
      ensures |notifications| == |old(notifications)| + 3
      ensures notifications[3..] == old(notifications)
      ensures notifications[0] == NewNotification(maintenanceId, Maintenance, MaintenanceTitle, MaintenanceMessage, Some(Low), maintenanceTime)
      ensures notifications[1] == NewNotification(batteryId, LowBattery, LowBatteryTitle, LowBatteryMessage, Some(Medium), batteryTime)
      ensures notifications[2] == NewNotification(obstacleId, ObstacleKind, ObstacleTitle, ObstacleMessage, Some(High), obstacleTime)
    {
      AddNotification(ObstacleKind, ObstacleTitle, ObstacleMessage, Some(High), obstacleId, obstacleTime);
      AddNotification(LowBattery, LowBatteryTitle, LowBatteryMessage, Some(Medium), batteryId, batteryTime);
      AddNotification(Maintenance, MaintenanceTitle, MaintenanceMessage, Some(Low), maintenanceId, maintenanceTime);
    }
  }
}
