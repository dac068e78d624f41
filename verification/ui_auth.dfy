/** The signed-in user held by the browser (frontend/contexts/auth-context.tsx).
    Login and registration are mock operations that build the user locally; the
    browser's storage is the field `stored`. */
module UiAuth {
  import opened Wrappers
  import opened Text

  datatype Role = Donor | Organizer | Admin

  /** A user; `role` is optional because the registration page calls `register`
      without one, and `preferences` is never set here. */
  datatype User = User(id: string, email: string, name: string, role: Option<Role>,
                       avatar: Option<string>, preferences: Option<seq<string>>)

  const Avatar := "/placeholder-user.jpg?height=40&width=40"

  /** The mock user that logging in with `email` produces. */
  function LoginUser(email: string): (u: User)
    ensures u.id == "1" && u.email == email && u.avatar == Some(Avatar)
    ensures u.role == Some(if Includes(email, "admin") then Admin else Donor)
  {
    User("1", email, BeforeFirst(email, '@'), Some(if Includes(email, "admin") then Admin else Donor), Some(Avatar), None)
  }

  /** The display name is the part of the address before the first '@' (all of it
      when there is none). */
  lemma LoginName(email: string)
    ensures LoginUser(email).name <= email && '@' !in LoginUser(email).name
    ensures '@' in email ==> email[|LoginUser(email).name|] == '@'
    ensures '@' !in email ==> LoginUser(email).name == email
  {
    var n := LoginUser(email).name;
    if |n| < |email| {
      assert email[|n|] in email;
    } else {
      assert n == email;
    }
  }

  /** The user registration produces; the id is the clock reading in decimal. */
  function RegisteredUser(email: string, name: string, role: Option<Role>, now: nat): (u: User)
    ensures u.email == email && u.name == name && u.role == role && u.avatar == Some(Avatar)
    ensures u.id == DecimalString(now)
    ensures u.id != "" && forall i :: 0 <= i < |u.id| ==> '0' <= u.id[i] <= '9'
  {
    User(DecimalString(now), email, name, role, Some(Avatar), None)
  }

  /** A registered user never gets the fixed id "1" of the mock login unless the
      clock read exactly 1. */
  lemma RegisteredIdDiffersFromLogin(email: string, name: string, role: Option<Role>, now: nat)
    requires now != 1
    ensures RegisteredUser(email, name, role, now).id != LoginUser(email).id
  {
    if DecimalString(now) == "1" {
      assert DecimalString(1) == "1";
      DecimalStringInjective(now, 1);
    }
  }

  class AuthState {
    var user: Option<User>
    var loading: bool
    /** The browser storage entry "user". */
    var stored: Option<User>

    /** The provider before its effect runs: no user, loading. */
    constructor (stored: Option<User>)
      ensures user == None && loading && this.stored == stored
    {
      user := None;
      loading := true;
      this.stored := stored;
    }

    /** The mount effect: a stored user becomes the current user; loading ends. */
    method Restore()
      modifies this
      ensures user == (if stored.Some? then stored else old(user))
      ensures !loading && stored == old(stored)
    {
      if stored.Some? {
        user := stored;
      }
      loading := false;
    }

    method Login(email: string, password: string)
      modifies this
      ensures user == Some(LoginUser(email)) && stored == user && !loading
    {
      loading := true;
      user := Some(LoginUser(email));
      stored := user;
      loading := false;
    }

    method Register(email: string, password: string, name: string, role: Option<Role>, now: nat)
      modifies this
      ensures user == Some(RegisteredUser(email, name, role, now)) && stored == user && !loading
    {
      loading := true;
      user := Some(RegisteredUser(email, name, role, now));
      stored := user;
      loading := false;
    }

    method Logout()
      modifies this
      ensures user == None && stored == None && loading == old(loading)
    {
      user := None;
      stored := None;
    }
  }
}
