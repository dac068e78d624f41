/** The profile editing wizard (frontend/app/edit-profile/page.tsx): three steps
    (basic info, interests, done), the first validated before moving on and
    again before saving. */
module UiEditProfile {
  import opened Wrappers
  import opened Text
  import UiAuth

  datatype ProfileData = ProfileData(name: string, email: string, avatar: string, bio: string,
                                     location: string, website: string, phone: string,
                                     interests: seq<string>, role: UiAuth.Role)

  /** The avatar shown when the user has none. */
  const PlaceholderAvatar := "/placeholder.svg?height=100&width=100"

  /** The form as first filled when the page mounts, from the signed-in user if the
      session is already restored and from nobody otherwise. Like JavaScript's `||`,
      an empty name, email or avatar counts as missing. */
  function InitialData(u: Option<UiAuth.User>): (d: ProfileData)
    ensures u.None? ==> d.name == "" && d.email == "" && d.role == UiAuth.Donor
    ensures u.Some? ==> d.name == u.value.name && d.email == u.value.email
    ensures u.Some? && u.value.role.Some? ==> d.role == u.value.role.value
    ensures d.avatar != ""
    ensures u.Some? && u.value.avatar.Some? && u.value.avatar.value != "" ==> d.avatar == u.value.avatar.value
    ensures !(u.Some? && u.value.avatar.Some? && u.value.avatar.value != "") ==> d.avatar == PlaceholderAvatar
    ensures d.interests == [] && d.bio == "" && d.location == "" && d.website == "" && d.phone == ""
  {
    match u
    case None => ProfileData("", "", PlaceholderAvatar, "", "", "", "", [], UiAuth.Donor)
    case Some(user) =>
      ProfileData(user.name, user.email,
                  if user.avatar.Some? && user.avatar.value != "" then user.avatar.value else PlaceholderAvatar,
                  "", "", "", "", [], user.role.GetOr(UiAuth.Donor))
  }

  /** `interests.filter((i) => i !== x)`. */
  function RemoveAll(s: seq<string>, x: string): (r: seq<string>)
    ensures |r| <= |s| && x !in r
    ensures x in s ==> |r| < |s|
    ensures forall y :: y != x ==> (y in r <==> y in s)
  {
    if s == [] then []
    else if s[|s| - 1] == x then RemoveAll(s[..|s| - 1], x)
    else
      assert s == s[..|s| - 1] + [s[|s| - 1]];
      assert x in s ==> x in s[..|s| - 1];
      RemoveAll(s[..|s| - 1], x) + [s[|s| - 1]]
  }

  /** `handleInterestToggle`: a chosen interest is removed, any other appended. */
  function ToggleInterest(s: seq<string>, x: string): (r: seq<string>)
    ensures x !in s ==> r == s + [x]
    ensures x in s ==> x !in r && |r| < |s|
  {
    if x in s then RemoveAll(s, x) else s + [x]
  }

  /** Toggling flips whether `x` is chosen and leaves every other interest as it was. */
  lemma ToggleFlips(s: seq<string>, x: string)
    ensures x in ToggleInterest(s, x) <==> x !in s
    ensures forall y :: y != x ==> (y in ToggleInterest(s, x) <==> y in s)
  {
  }

  /** Choosing an interest and un-choosing it restores the list. */
  lemma {:induction false} ToggleTwice(s: seq<string>, x: string)
    requires x !in s
    ensures ToggleInterest(ToggleInterest(s, x), x) == s
  {
    assert (s + [x])[..|s|] == s;
    RemoveAbsent(s, x);
  }

  lemma {:induction false} RemoveAbsent(s: seq<string>, x: string)
    requires x !in s
    ensures RemoveAll(s, x) == s
  {
    if s != [] {
      assert s == s[..|s| - 1] + [s[|s| - 1]];
      RemoveAbsent(s[..|s| - 1], x);
    }
  }

  /** The pattern `\S+@\S+\.\S+` occurs in `s`: some '@' with a non-space before
      it, then one or more non-space characters, a '.', and a non-space after it. */
  predicate EmailLike(s: string): (b: bool)
    ensures b ==> '@' in s && '.' in s && |s| >= 5
  {
    exists a, d :: 0 < a < d < |s| && MatchAt(s, a, d)
  }

  /** The pattern matches with its '@' at `a` and its '.' at `d`. */
  predicate MatchAt(s: string, a: int, d: int) {
    && 0 < a && a + 1 < d && d + 1 < |s|
    && s[a] == '@' && s[d] == '.' && !IsSpace(s[a - 1]) && !IsSpace(s[d + 1])
    && NonSpaceRun(s, a + 1, d)
  }

  /** `s[i..j]` has no white space. */
  predicate NonSpaceRun(s: string, i: int, j: int)
    requires 0 <= i <= j <= |s|
  {
    forall m :: i <= m < j ==> !IsSpace(s[m])
  }

  lemma EmailExamples()
    ensures EmailLike("ana@mail.com")
    ensures !EmailLike("ana@mail")
    ensures !EmailLike("ana @.com")
  {
    var s := "ana@mail.com";
    assert s[3] == '@' && s[8] == '.' && !IsSpace(s[2]) && !IsSpace(s[9]);
    assert NonSpaceRun(s, 4, 8);
    assert MatchAt(s, 3, 8);
    assert !EmailLike("ana @.com") by {
      var t := "ana @.com";
      forall a, d ensures !MatchAt(t, a, d) {
      }
    }
  }

  /** A string matching the pattern is not blank. */
  lemma EmailLikeNotBlank(s: string)
    requires EmailLike(s)
    ensures !IsBlank(s)
  {
    var a, d :| 0 < a < d < |s| && MatchAt(s, a, d);
    assert !IsSpace(s[a]);
  }

  /** The messages step 1 can show. */
  datatype Message = NameRequired | EmailRequired | EmailInvalid

  /** The text of each message. */
  function MessageText(m: Message): string {
    match m
    case NameRequired => "Name is required"
    case EmailRequired => "Email is required"
    case EmailInvalid => "Please enter a valid email"
  }

  /** The messages shown beside the fields; `None` is no message. */
  datatype FieldErrors = FieldErrors(name: Option<Message>, email: Option<Message>)

  const NoErrors := FieldErrors(None, None)

  /** `Object.keys(errors).length === 0`. */
  predicate Clear(e: FieldErrors) {
    e.name.None? && e.email.None?
  }

  /** The messages `validateStep1` records; `!x.trim()` is written `IsBlank(x)`
      (the two agree, `TrimEmptyIffBlank`). */
  function Step1Errors(d: ProfileData): (e: FieldErrors)
    ensures e.name == None || e.name == Some(NameRequired)
    ensures e.email.Some? ==> e.email.value != NameRequired
    ensures e.email.None? ==> EmailLike(d.email)
  {
    FieldErrors(
      if IsBlank(d.name) then Some(NameRequired) else None,
      if IsBlank(d.email) then Some(EmailRequired)
      else if !EmailLike(d.email) then Some(EmailInvalid)
      else None)
  }

  /** In the source's terms: a name message exactly when the trimmed name is
      empty; "required" when the trimmed address is empty, otherwise "valid"
      when it does not match the pattern. */
  lemma Step1ErrorsSpec(d: ProfileData)
    ensures Step1Errors(d).name.Some? <==> Trim(d.name) == []
    ensures Step1Errors(d).name.Some? ==> Step1Errors(d).name.value == NameRequired
    ensures Trim(d.email) == [] ==> Step1Errors(d).email == Some(EmailRequired)
    ensures Trim(d.email) != [] ==> Step1Errors(d).email == (if EmailLike(d.email) then None else Some(EmailInvalid))
  {
    TrimEmptyIffBlank(d.name);
    TrimEmptyIffBlank(d.email);
  }

  /** Step 1 passes exactly when the name has a non-space character and the
      e-mail matches the pattern. */
  lemma Step1ValidIff(d: ProfileData)
    ensures Clear(Step1Errors(d)) <==> !IsBlank(d.name) && EmailLike(d.email)
  {
    if EmailLike(d.email) {
      EmailLikeNotBlank(d.email);
    }
  }

  /** Where a first-time user goes after saving, and where skipping leads: chosen
      by the signed-in user's role, not by the role shown in the form. */
  function DashboardFor(u: UiAuth.User): (path: string)
    ensures path == "/admin/dashboard" <==> u.role == Some(UiAuth.Admin)
    ensures path != "/admin/dashboard" ==> path == "/user/dashboard"
  {
    if u.role == Some(UiAuth.Admin) then "/admin/dashboard" else "/user/dashboard"
  }

  const AvatarUrlPrefix := "/placeholder.svg?height=100&width=100&text="
  const SavedMessage := "Profile updated successfully!"

  class ProfileForm {
    var currentStep: int
    var isSaving: bool
    var errors: FieldErrors
    var successMessage: string
    var data: ProfileData

    /** The step is one of the three. */
    ghost predicate Valid()
      reads this
    {
      1 <= currentStep <= 3
    }

    constructor (u: Option<UiAuth.User>)
      ensures Valid() && currentStep == 1 && !isSaving && errors == NoErrors && successMessage == ""
      ensures data == InitialData(u)
    {
      currentStep := 1;
      isSaving := false;
      errors := NoErrors;
      successMessage := "";
      data := InitialData(u);
    }

    method Edit(d: ProfileData)
      modifies this
      ensures data == d
      ensures currentStep == old(currentStep) && isSaving == old(isSaving)
      ensures errors == old(errors) && successMessage == old(successMessage)
    {
      data := d;
    }

    /** `handleAvatarUpload`: a chosen file's mock URL becomes the avatar. */
    method UploadAvatar(fileName: Option<string>)
      modifies this
      ensures data == (if fileName.Some? then old(data).(avatar := AvatarUrlPrefix + fileName.value) else old(data))
      ensures currentStep == old(currentStep) && isSaving == old(isSaving)
      ensures errors == old(errors) && successMessage == old(successMessage)
    {
      if fileName.Some? {
        data := data.(avatar := AvatarUrlPrefix + fileName.value);
      }
    }

    method ToggleInterestOf(x: string)
      modifies this
      ensures data == old(data).(interests := ToggleInterest(old(data).interests, x))
      ensures currentStep == old(currentStep) && isSaving == old(isSaving)
      ensures errors == old(errors) && successMessage == old(successMessage)
    {
      data := data.(interests := ToggleInterest(data.interests, x));
    }

    /** `validateStep1`: records the errors and reports whether there are none. */
    method ValidateStep1() returns (ok: bool)
      modifies this
      ensures errors == Step1Errors(data) && ok == Clear(errors)
      ensures ok <==> !IsBlank(data.name) && EmailLike(data.email)
      ensures data == old(data) && currentStep == old(currentStep)
      ensures isSaving == old(isSaving) && successMessage == old(successMessage)
    {
      var d := data;
      var e := Step1Errors(d);
      Step1ValidIff(d);
      ok := Clear(e);
      errors := e;
    }

    /** `handleNext`: from step 1 only with valid basic info; from step 2 to 3;
        nothing on step 3. */
    method HandleNext()
      requires Valid()
      modifies this
      ensures Valid()
      ensures old(currentStep) == 1 ==>
        errors == Step1Errors(data) && currentStep == (if Clear(errors) then 2 else 1)
      ensures old(currentStep) == 2 ==> currentStep == 3 && errors == old(errors)
      ensures old(currentStep) == 3 ==> currentStep == 3 && errors == old(errors)
      ensures data == old(data) && isSaving == old(isSaving) && successMessage == old(successMessage)
    {
      if currentStep == 1 {
        var ok := ValidateStep1();
        if ok {
          currentStep := 2;
        }
      } else if currentStep == 2 {
        currentStep := 3;
      }
    }

    /** `handleBack`: one step back, never before the first. */
    method HandleBack()
      requires Valid()
      modifies this
      ensures Valid()
      ensures currentStep == if old(currentStep) > 1 then old(currentStep) - 1 else old(currentStep)
      ensures data == old(data) && errors == old(errors)
      ensures isSaving == old(isSaving) && successMessage == old(successMessage)
    {
      if currentStep > 1 {
        currentStep := currentStep - 1;
      }
    }

    /** `handleSave`: invalid basic info sends the user back to step 1; otherwise
        the success message is shown and the user is sent on, first-time users to
        their dashboard and others to their profile. */
    method HandleSave(user: UiAuth.User, isFirstTime: bool) returns (redirect: Option<string>)
      requires Valid()
      modifies this
      ensures Valid() && !isSaving
      ensures errors == Step1Errors(data) && data == old(data)
      ensures !Clear(errors) ==> currentStep == 1 && successMessage == "" && redirect == None
      ensures Clear(errors) ==>
        && currentStep == old(currentStep) && successMessage == SavedMessage
        && redirect == Some(if isFirstTime then DashboardFor(user) else "/profile")
    {
      isSaving := true;
      errors := NoErrors;
      successMessage := "";
      var ok := ValidateStep1();
      if !ok {
        currentStep := 1;
        redirect := None;
      } else {
        successMessage := SavedMessage;
        redirect := Some(if isFirstTime then DashboardFor(user) else "/profile");
      }
      isSaving := false;
    }
  }
}
