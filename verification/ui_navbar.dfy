/** The navigation bar's derived values (frontend/components/layout/navbar.tsx):
    the unread badge count and the dashboard link for the signed-in user. */
module UiNavbar {
  import opened Wrappers
  import opened UiNotifications
  import opened UiAuth

  /** `notifications.filter((n) => !n.read).length`. */
  function UnreadCount(s: seq<Notice>): (r: nat)
    ensures r <= |s|
  {
    if s == [] then 0 else (if s[0].read then 0 else 1) + UnreadCount(s[1..])
  }

  /** The badge shows (a positive count) exactly when some notice is unread. */
  lemma {:induction false} BadgeIffUnread(s: seq<Notice>)
    ensures UnreadCount(s) > 0 <==> exists i :: 0 <= i < |s| && !s[i].read
  {
    if s != [] {
      BadgeIffUnread(s[1..]);
      if !s[0].read {
        assert !s[0].read;
      } else if exists i :: 0 <= i < |s[1..]| && !s[1..][i].read {
        var i :| 0 <= i < |s[1..]| && !s[1..][i].read;
        assert !s[i + 1].read;
      } else {
        forall i | 0 <= i < |s| ensures s[i].read {
          if i > 0 { assert s[i] == s[1..][i - 1]; }
        }
      }
    }
  }

  /** Adding a notice raises the count by one. */
  lemma AddRaisesCount(n: Notice, s: seq<Notice>)
    requires !n.read
    ensures UnreadCount([n] + s) == UnreadCount(s) + 1
  {
    assert ([n] + s)[1..] == s;
  }

  /** The number of unread notices with id `id`. */
  function UnreadWithId(s: seq<Notice>, id: string): nat {
    if s == [] then 0 else (if !s[0].read && s[0].id == id then 1 else 0) + UnreadWithId(s[1..], id)
  }

  /** Marking `id` read lowers the count by the number of unread notices with that
      id, and no unread notice with that id remains. */
  lemma {:induction false} MarkLowersCount(s: seq<Notice>, id: string)
    ensures UnreadCount(MarkedRead(s, id)) + UnreadWithId(s, id) == UnreadCount(s)
    ensures UnreadWithId(MarkedRead(s, id), id) == 0
  {
    if s != [] {
      MarkLowersCount(s[1..], id);
      assert MarkedRead(s, id)[1..] == MarkedRead(s[1..], id);
    }
  }

  /** `getDashboardLink()`. */
  function DashboardLink(user: Option<User>): (r: string)
    ensures user.None? ==> r == "/login"
    ensures user.Some? && user.value.role == Some(Admin) ==> r == "/admin/dashboard"
    ensures user.Some? && user.value.role == Some(Organizer) ==> r == "/organizer/dashboard"
    ensures user.Some? && user.value.role !in {Some(Admin), Some(Organizer)} ==> r == "/donor/dashboard"
  {
    match user
    case None => "/login"
    case Some(u) =>
      match u.role
      case Some(Admin) => "/admin/dashboard"
      case Some(Organizer) => "/organizer/dashboard"
      case _ => "/donor/dashboard"
  }

  /** After a mock login the dashboard follows the address: administrators'
      addresses contain "admin". */
  lemma LoginDashboard(email: string)
    ensures DashboardLink(Some(LoginUser(email))) ==
      if Text.Includes(email, "admin") then "/admin/dashboard" else "/donor/dashboard"
  {
  }
}
