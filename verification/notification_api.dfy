/** The notification service's HTTP handlers
    (backend/notification-service/api/notifications.py): each delegates to the
    service and maps an absent result to 404. */
module NotificationApi {
  import opened Wrappers
  import opened NotificationModel
  import opened NotificationStore
  import opened Keys

  /** A handler's outcome: a body, the empty 204 reply, or 404 with its detail. */
  datatype Reply<T> = Ok(body: T) | NoContent | NotFound(detail: string)

  const NotFoundDetail := "Notification not found"

  /** `POST /`: the service's newly stored notification, as a read body. */
  method CreateNotification(store: Store, p: NotificationCreate, now: int) returns (r: NotificationRead)
    requires store.Valid()
    modifies store
    ensures store.Valid()
    ensures r == ToRead(FromCreate(p, now).(id := Some(old(NextKey(store.order)))))
    ensures store.rows == old(store.rows)[old(NextKey(store.order)) := FromCreate(p, now).(id := Some(old(NextKey(store.order))))]
  {
    var n := store.Create(p, now);
    r := ToRead(n);
  }

  /** `GET /{user_id}`: the service's per-user list, as read bodies. */
  method GetNotificationsForUser(store: Store, userId: string) returns (r: seq<NotificationRead>)
    requires store.Valid()
    ensures var mine := ForUser(store.Contents(), userId);
      && |r| == |mine|
      && forall i :: 0 <= i < |r| ==> mine[i].id.Some? && r[i] == ToRead(mine[i]) && r[i].userId == userId
  {
    var mine := store.ByUser(userId);
    forall i | 0 <= i < |mine| ensures mine[i].id.Some? && mine[i].userId == userId {
      assert mine[i] in mine;
      var j :| 0 <= j < |store.order| && store.Contents()[j] == mine[i];
      assert store.order[j] in store.rows;
    }
    r := seq(|mine|, i requires 0 <= i < |mine| && mine[i].id.Some? => ToRead(mine[i]));
  }

  /** `PUT /{notification_id}`: 404 exactly when the service finds no row; otherwise
      the updated row. */
  method UpdateNotification(store: Store, id: int, u: NotificationUpdate) returns (r: Reply<NotificationRead>)
    requires store.Valid()
    modifies store
    ensures store.Valid()
    ensures id !in old(store.rows) ==> r == NotFound(NotFoundDetail) && unchanged(store)
    ensures id in old(store.rows) ==>
              r == Ok(ToRead(ApplySeen(old(store.rows[id]), u).(id := Some(id))))
              && store.rows == old(store.rows)[id := ApplySeen(old(store.rows[id]), u)]
  {
    var updated := store.Update(id, u);
    if updated.None? {
      return NotFound(NotFoundDetail);
    }
    r := Ok(ToRead(updated.value));
  }

  /** `DELETE /{notification_id}`: 404 (and no change) when the service deleted
      nothing, otherwise the empty 204 reply. */
  method DeleteNotification(store: Store, id: int) returns (r: Reply<()>)
    requires store.Valid()
    modifies store
    ensures store.Valid()
    ensures id !in old(store.rows) ==> r == NotFound(NotFoundDetail) && unchanged(store)
    ensures id in old(store.rows) ==> r == NoContent && store.rows == old(store.rows) - {id}
  {
    var deleted := store.Delete(id);
    if !deleted {
      return NotFound(NotFoundDetail);
    }
    r := NoContent;
  }
}
