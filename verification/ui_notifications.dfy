/** The in-browser notification list (frontend/contexts/notification-context.tsx):
    a list held in component state, seeded with two unread notices, that grows at
    the front and whose entries can be marked read or all cleared. */
module UiNotifications {
  import opened Text

  datatype Kind = Info | Success | Warning | Error

  /** A notice; `createdAt` is a clock reading in milliseconds. */
  datatype Notice = Notice(id: string, title: string, message: string, kind: Kind, read: bool, createdAt: int)

  /** The two notices the list starts with, half an hour and an hour old. */
  function Seed(now: int): (r: seq<Notice>)
    ensures |r| == 2 && r[0].id == "1" && r[1].id == "2"
    ensures forall i :: 0 <= i < |r| ==> !r[i].read
  {
    [ Notice("1", "Campaign Approved", "Your campaign 'Help Build School' has been approved!", Success, false, now - 1000 * 60 * 30),
      Notice("2", "New Donation", "You received a $50 donation from John Doe", Info, false, now - 1000 * 60 * 60) ]
  }

  /** `{ ...notice, read: true }` on the notices whose id is `id`. */
  function MarkedRead(s: seq<Notice>, id: string): (r: seq<Notice>)
    ensures |r| == |s|
    ensures forall i :: 0 <= i < |s| ==>
      r[i] == if s[i].id == id then s[i].(read := true) else s[i]
  {
    seq(|s|, i requires 0 <= i < |s| => if s[i].id == id then s[i].(read := true) else s[i])
  }

  /** Marking twice is marking once. */
  lemma MarkedReadIdempotent(s: seq<Notice>, id: string)
    ensures MarkedRead(MarkedRead(s, id), id) == MarkedRead(s, id)
  {
  }

  /** Afterwards every notice with that id is read, and marking an id no notice
      has changes nothing. */
  lemma MarkedReadEffect(s: seq<Notice>, id: string)
    ensures forall i :: 0 <= i < |s| && s[i].id == id ==> MarkedRead(s, id)[i].read
    ensures (forall i :: 0 <= i < |s| ==> s[i].id != id) ==> MarkedRead(s, id) == s
  {
  }

  class NotificationCenter {
    var notifications: seq<Notice>

    /** The provider's initial state. */
    constructor (now: int)
      ensures notifications == Seed(now)
    {
      notifications := Seed(now);
    }

    /** `addNotification`: the new notice, unread and stamped with the clock,
        goes in front of the others. */
    method AddNotification(title: string, message: string, kind: Kind, now: nat)
      modifies this
      ensures notifications == [Notice(DecimalString(now), title, message, kind, false, now)] + old(notifications)
    {
      var notice := Notice(DecimalString(now), title, message, kind, false, now);
      notifications := [notice] + notifications;
    }

    method MarkAsRead(id: string)
      modifies this
      ensures notifications == MarkedRead(old(notifications), id)
    {
      notifications := MarkedRead(notifications, id);
    }

    method ClearAll()
      modifies this
      ensures notifications == []
    {
      notifications := [];
    }
  }
}
