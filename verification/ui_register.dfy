/** The registration form (frontend/app/register/page.tsx): the password is
    checked against its confirmation and for length, then the account is created
    through the signed-in-user state. */
module UiRegister {
  import opened Wrappers
  import UiAuth
  import UiNavbar

  datatype RegisterData = RegisterData(name: string, email: string, password: string, confirmPassword: string)

  datatype RegisterError = PasswordsDiffer | PasswordTooShort

  function ErrorText(e: RegisterError): string {
    match e
    case PasswordsDiffer => "Passwords do not match"
    case PasswordTooShort => "Password must be at least 6 characters"
  }

  /** The check in `handleSubmit`: the mismatch is reported before the length. */
  function Check(d: RegisterData): (r: Option<RegisterError>)
    ensures r.None? <==> d.password == d.confirmPassword && |d.password| >= 6
    ensures d.password != d.confirmPassword ==> r == Some(PasswordsDiffer)
  {
    if d.password != d.confirmPassword then Some(PasswordsDiffer)
    else if |d.password| < 6 then Some(PasswordTooShort)
    else None
  }

  /** The page calls `register` with no role, so a registered user has none and
      the navigation bar sends them to the donor dashboard. */
  lemma RegisteredUserDashboard(d: RegisterData, now: nat)
    ensures UiAuth.RegisteredUser(d.email, d.name, None, now).role == None
    ensures UiNavbar.DashboardLink(Some(UiAuth.RegisteredUser(d.email, d.name, None, now))) == "/donor/dashboard"
  {
  }

  class RegisterForm {
    var formData: RegisterData
    var error: Option<RegisterError>

    constructor ()
      ensures formData == RegisterData("", "", "", "") && error == None
    {
      formData := RegisterData("", "", "", "");
      error := None;
    }

    /** Typing in any field also clears the error. */
    method EditField(d: RegisterData)
      modifies this
      ensures formData == d && error == None
    {
      formData := d;
      error := None;
    }

    /** `handleSubmit`: a failed check shows its message; otherwise the account is
        registered (with no role) and the user is sent to "/user/dashboard". */
    method HandleSubmit(auth: UiAuth.AuthState, now: nat) returns (redirect: Option<string>)
      modifies this, auth
      ensures formData == old(formData) && error == Check(formData)
      ensures error.Some? ==>
        && redirect == None && auth.user == old(auth.user)
        && auth.stored == old(auth.stored) && auth.loading == old(auth.loading)
      ensures error.None? ==>
        && redirect == Some("/user/dashboard")
        && auth.user == Some(UiAuth.RegisteredUser(formData.email, formData.name, None, now))
        && auth.stored == auth.user && !auth.loading
    {
      error := None;
      var e := Check(formData);
      if e.Some? {
        error := e;
        return None;
      }
      auth.Register(formData.email, formData.password, formData.name, None, now);
      redirect := Some("/user/dashboard");
    }
  }
}
