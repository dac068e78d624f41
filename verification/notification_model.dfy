/** The notification service's record (backend/notification-service/models/notification.py)
    and payloads (backend/notification-service/schemas/notification.py).
    `created_at` is the caller-supplied server time `now`. */
module NotificationModel {
  import opened Wrappers

  /** `NotificationCreate` (= `NotificationBase`): only user, text and link, so a
      client cannot choose the key, `seen` or `created_at`. */
  datatype NotificationCreate = NotificationCreate(userId: string, notification: string, url: string)

  /** `NotificationUpdate`: `seen` is the only field, `None` when not sent. */
  datatype NotificationUpdate = NotificationUpdate(seen: Option<bool>)

  /** The update payload with its default. */
  const EmptyUpdate := NotificationUpdate(None)

  /** A `Notification` row; `id` is `None` until the row is stored. */
  datatype Notification = Notification(
    id: Option<int>,
    userId: string,
    notification: string,
    url: string,
    seen: bool,
    createdAt: int)

  /** `Notification.from_orm(payload)`: the payload's fields, no key yet, unseen,
      stamped by the server-side default. */
  function FromCreate(p: NotificationCreate, now: int): (n: Notification)
    ensures NotificationCreate(n.userId, n.notification, n.url) == p
    ensures n.id == None && !n.seen && n.createdAt == now
  {
    Notification(None, p.userId, p.notification, p.url, false, now)
  }

  /** A new notification has no key, is unseen, carries the server's time and the
      payload's three required fields (models/notification.py:7-12). */
  lemma FromCreateDefaults(p: NotificationCreate, now: int)
    ensures var n := FromCreate(p, now);
      && n.id == None && !n.seen && n.createdAt == now
      && n.userId == p.userId && n.notification == p.notification && n.url == p.url
  {
  }

  /** `NotificationRead`: the base fields plus key, `seen` and `created_at`. */
  datatype NotificationRead = NotificationRead(
    userId: string,
    notification: string,
    url: string,
    id: int,
    seen: bool,
    createdAt: int)

  function ToRead(n: Notification): NotificationRead
    requires n.id.Some?
  {
    NotificationRead(n.userId, n.notification, n.url, n.id.value, n.seen, n.createdAt)
  }

  /** The base fields of a read body, as a create payload. */
  function BaseOf(r: NotificationRead): NotificationCreate {
    NotificationCreate(r.userId, r.notification, r.url)
  }

  /** A created notification read back gives its payload unchanged, with the stored
      key, `seen` false and the server's time (schemas/notification.py:6-17). */
  lemma ReadRoundTrip(p: NotificationCreate, now: int, id: int)
    ensures var r := ToRead(FromCreate(p, now).(id := Some(id)));
      && BaseOf(r) == p && r.id == id && !r.seen && r.createdAt == now
  {
  }

  /** `update_notification`'s effect on a found row: `seen` takes the payload's value
      when one is sent, and nothing else changes. */
  function ApplySeen(n: Notification, u: NotificationUpdate): (r: Notification)
    ensures r.(seen := n.seen) == n
    ensures r.seen == u.seen.GetOr(n.seen)
  {
    if u.seen.Some? then n.(seen := u.seen.value) else n
  }

  /** The update never touches the key, user, text, link or time; it sets `seen`
      to a sent value and keeps it when none is sent
      (services/notification_service.py:25-26). */
  lemma ApplySeenSpec(n: Notification, u: NotificationUpdate)
    ensures var r := ApplySeen(n, u);
      && r.id == n.id && r.userId == n.userId && r.notification == n.notification
      && r.url == n.url && r.createdAt == n.createdAt
      && r.seen == (if u.seen.Some? then u.seen.value else n.seen)
      && (u.seen.None? ==> r == n)
  {
  }

  /** Sending the same update twice has the effect of sending it once. */
  lemma ApplySeenIdempotent(n: Notification, u: NotificationUpdate)
    ensures ApplySeen(ApplySeen(n, u), u) == ApplySeen(n, u)
  {
  }
}
