/** The administrators' user page (frontend/app/admin/page.tsx): statistics over
    the loaded users, the search and status/role filters, and the requests that
    change a user's role or ban status. */
module UiAdminUsers {
  import opened Wrappers
  import opened Text
  import GatewayRoutes
  import GatewayFilter

  /** A user as the page reads it; `role` is compared as a string. */
  datatype UserEntry = UserEntry(id: string, name: string, email: string, role: string, isBanned: bool)

  datatype UserStats = UserStats(total: nat, active: int, banned: nat, admins: nat)

  function CountBanned(s: seq<UserEntry>): (r: nat)
    ensures r <= |s|
  {
    if s == [] then 0 else CountBanned(s[..|s| - 1]) + (if s[|s| - 1].isBanned then 1 else 0)
  }

  function CountAdmins(s: seq<UserEntry>): (r: nat)
    ensures r <= |s|
  {
    if s == [] then 0 else CountAdmins(s[..|s| - 1]) + (if s[|s| - 1].role == "admin" then 1 else 0)
  }

  /** The statistics effect: total, banned, active = total - banned, admins. */
  function Stats(users: seq<UserEntry>): (st: UserStats)
    ensures st.active + st.banned == st.total == |users|
    ensures 0 <= st.active && st.admins <= st.total
  {
    var total := |users|;
    var banned := CountBanned(users);
    UserStats(total, total - banned, banned, CountAdmins(users))
  }

  /** The status a user shows as. */
  function Status(u: UserEntry): string {
    if u.isBanned then "banned" else "active"
  }

  /** One user passes the page's three filters. */
  predicate Matches(u: UserEntry, term: string, statusFilter: string, roleFilter: string) {
    (IncludesIgnoreCase(u.name, term) || IncludesIgnoreCase(u.email, term))
    && (statusFilter == "all" || Status(u) == statusFilter)
    && (roleFilter == "all" || u.role == roleFilter)
  }

  /** `filteredUsers`. */
  function FilteredUsers(users: seq<UserEntry>, term: string, statusFilter: string, roleFilter: string): (r: seq<UserEntry>)
    ensures |r| <= |users|
  {
    if users == [] then []
    else
      var rest := FilteredUsers(users[..|users| - 1], term, statusFilter, roleFilter);
      if Matches(users[|users| - 1], term, statusFilter, roleFilter) then rest + [users[|users| - 1]] else rest
  }

  /** The filtered list holds exactly the users passing all three filters. */
  lemma {:induction false} FilteredUsersMembers(users: seq<UserEntry>, term: string, statusFilter: string, roleFilter: string)
    ensures forall u :: u in FilteredUsers(users, term, statusFilter, roleFilter) <==>
      u in users && Matches(u, term, statusFilter, roleFilter)
  {
    if users != [] {
      FilteredUsersMembers(users[..|users| - 1], term, statusFilter, roleFilter);
      assert users == users[..|users| - 1] + [users[|users| - 1]];
    }
  }

  /** With no search term and both filters on "all", every user is listed. */
  lemma {:induction false} NoFilterListsEveryone(users: seq<UserEntry>)
    ensures FilteredUsers(users, "", "all", "all") == users
  {
    if users != [] {
      NoFilterListsEveryone(users[..|users| - 1]);
      IncludesEmpty(users[|users| - 1].name);
      assert users[..|users| - 1] + [users[|users| - 1]] == users;
    }
  }

  /** The "banned" status filter alone lists as many users as the banned
      statistic counts, the "active" one as many as the active statistic, and
      the "admin" role filter alone as many as the admins statistic. */
  lemma {:induction false} StatusFilterAgreesWithStats(users: seq<UserEntry>)
    ensures |FilteredUsers(users, "", "banned", "all")| == Stats(users).banned
    ensures |FilteredUsers(users, "", "active", "all")| == Stats(users).active
    ensures |FilteredUsers(users, "", "all", "admin")| == Stats(users).admins
  {
    if users != [] {
      StatusFilterAgreesWithStats(users[..|users| - 1]);
      IncludesEmpty(users[|users| - 1].name);
    }
  }

  /** The request toggling a user's ban: the endpoint path and the id sent. */
  datatype BanRequest = BanRequest(path: string, userId: string)

  /** `handleBanToggle`'s request: unban a banned user, ban any other. */
  function BanToggle(u: UserEntry): (r: BanRequest)
    ensures r.userId == u.id
    ensures r.path == (if u.isBanned then "/api/users/unban-user" else "/api/users/ban-user")
  {
    BanRequest("/api/users/" + (if u.isBanned then "unban-user" else "ban-user"), u.id)
  }

  const SetRolePath := "/api/users/set-role"

  /** The request `handleRoleChange` sends: its path, its Authorization header and
      the `{id, role}` body. */
  datatype RoleRequest = RoleRequest(path: string, authorization: string, userId: string, role: string)

  /** `handleRoleChange(userId, newRole)` with the stored access token `token`. */
  function RoleChange(userId: string, newRole: string, token: string): (r: RoleRequest)
    ensures r.path == SetRolePath && r.userId == userId && r.role == newRole
    ensures StartsWith(r.authorization, GatewayFilter.BearerPrefix)
    ensures r.authorization[|GatewayFilter.BearerPrefix|..] == token
  {
    RoleRequest(SetRolePath, "Bearer " + token, userId, newRole)
  }

  /** Both administrative requests go through the gateway's filtered user route. */
  lemma AdminRequestsAreFiltered(u: UserEntry, userId: string, newRole: string, token: string)
    ensures GatewayRoutes.Select(BanToggle(u).path, "PUT") == Some(GatewayRoutes.ProtectedUser)
    ensures GatewayRoutes.Select(RoleChange(userId, newRole, token).path, "PUT") == Some(GatewayRoutes.ProtectedUser)
    ensures GatewayRoutes.Filtered(GatewayRoutes.ProtectedUser)
  {
    var p := BanToggle(u).path;
    assert p[..11] == "/api/users/";
    assert SetRolePath[..11] == "/api/users/";
    assert p[11] != "/api/users/auth"[11] && SetRolePath[11] != "/api/users/auth"[11];
  }
}
