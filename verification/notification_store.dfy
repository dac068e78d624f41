/** The notification table and its service functions
    (backend/notification-service/services/notification_service.py). A committed
    session operation is one atomic update of the table. */
module NotificationStore {
  import opened Wrappers
  import opened NotificationModel
  import opened Keys

  /** `WHERE user_id == userId`, keeping storage order. */
  function ForUser(s: seq<Notification>, userId: string): (r: seq<Notification>)
    ensures |r| <= |s|
  {
    if s == [] then []
    else ForUser(s[..|s| - 1], userId) + (if s[|s| - 1].userId == userId then [s[|s| - 1]] else [])
  }

  /** The per-user list holds exactly the stored notifications of that user. */
  lemma {:induction false} ForUserMembers(s: seq<Notification>, userId: string)
    ensures forall n :: n in ForUser(s, userId) <==> n in s && n.userId == userId
  {
    if s != [] {
      var init := s[..|s| - 1];
      ForUserMembers(init, userId);
      assert s == init + [s[|s| - 1]];
    }
  }

  /** Filtering a result extended by one row extends the filtered result by that row
      exactly when it belongs to the user. */
  lemma ForUserSnoc(s: seq<Notification>, i: nat, userId: string)
    requires i < |s|
    ensures ForUser(s[..i + 1], userId) == ForUser(s[..i], userId) + (if s[i].userId == userId then [s[i]] else [])
  {
    assert s[..i + 1][..i] == s[..i];
  }

  /** The notification table: rows keyed by id and the keys in use in ascending
      order, which is storage order; the next key is `NextKey(order)`. */
  class Store {
    var rows: map<int, Notification>
    var order: seq<int>

    /** Every row is stored under its own positive key, listed once in `order`. */
    ghost predicate Valid()
      reads this
    {
      && (forall i :: 0 <= i < |order| ==> order[i] in rows)
      && (forall k :: k in rows ==> k in order)
      && Increasing(order)
      && forall k :: k in rows ==> 1 <= k && rows[k].id == Some(k)
    }

    /** The stored notifications in storage order. */
    ghost function Contents(): (r: seq<Notification>)
      reads this
      requires Valid()
      ensures |r| == |order| && forall i :: 0 <= i < |order| ==> r[i] == rows[order[i]]
    {
      seq(|order|, i requires 0 <= i < |order| reads this requires Valid() => rows[order[i]])
    }

    constructor ()
      ensures Valid() && rows == map[] && order == []
    {
      rows := map[];
      order := [];
    }

    /** `create_notification`: stores the payload as a new unseen notification under a
        fresh key and returns the stored row. */
    method Create(p: NotificationCreate, now: int) returns (n: Notification)
      requires Valid()
      modifies this
      ensures Valid()
      ensures n == FromCreate(p, now).(id := Some(old(NextKey(order))))
      ensures old(NextKey(order)) !in old(rows) && rows == old(rows)[old(NextKey(order)) := n]
      ensures order == old(order) + [old(NextKey(order))]
    {
      var id := NextKey(order);
      NextKeyFresh(rows, order);
      IncreasingSnoc(order, id);
      n := FromCreate(p, now).(id := Some(id));
      rows := rows[id := n];
      order := order + [id];
    }

    /** `get_notifications_by_user`: the user's stored notifications in storage order. */
    method ByUser(userId: string) returns (r: seq<Notification>)
      requires Valid()
      ensures r == ForUser(Contents(), userId)
      ensures forall n :: n in r <==> n in Contents() && n.userId == userId
    {
      ghost var all := Contents();
      r := [];
      var i := 0;
      while i < |order|
        invariant 0 <= i <= |order|
        invariant r == ForUser(all[..i], userId)
      {
        var n := rows[order[i]];
        assert n == all[i];
        ForUserSnoc(all, i, userId);
        if n.userId == userId {
          r := r + [n];
        }
        i := i + 1;
      }
      assert all[..|order|] == all;
      ForUserMembers(all, userId);
    }

    /** `get_notification`: the stored row, or `None`. */
    method Get(id: int) returns (r: Option<Notification>)
      requires Valid()
      ensures r.Some? <==> id in rows
      ensures r.Some? ==> r.value == rows[id] && r.value.id == Some(id)
    {
      r := if id in rows then Some(rows[id]) else None;
    }

    /** `update_notification`: `None` and no change for a missing key; otherwise the
        row with `seen` updated as the payload says. */
    method Update(id: int, u: NotificationUpdate) returns (r: Option<Notification>)
      requires Valid()
      modifies this
      ensures Valid()
      ensures id !in old(rows) ==> r == None && unchanged(this)
      ensures id in old(rows) ==>
                r == Some(ApplySeen(old(rows[id]), u))
                && rows == old(rows)[id := r.value]
                && order == old(order)
    {
      if id !in rows {
        return None;
      }
      var n := rows[id];
      if u.seen.Some? {
        n := n.(seen := u.seen.value);
      }
      rows := rows[id := n];
      r := Some(n);
    }

    /** `delete_notification`: true exactly when the key was stored; afterwards it is
        not, and the other rows keep their storage order. */
    method Delete(id: int) returns (deleted: bool)
      requires Valid()
      modifies this
      ensures Valid()
      ensures deleted == (id in old(rows))
      ensures rows == old(rows) - {id} && order == Without(old(order), id)
      ensures !deleted ==> unchanged(this)
      ensures deleted ==> |rows| == |old(rows)| - 1
    {
      if id !in rows {
        WithoutAbsent(order, id);
        return false;
      }
      rows := rows - {id};
      order := Without(order, id);
      forall i | 0 <= i < |order| ensures order[i] in rows {
        assert order[i] in order;
      }
      deleted := true;
    }
  }
}
