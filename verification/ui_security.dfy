/** The password change form (frontend/components/profile/SecurityContent.tsx):
    three fields validated together; a valid change shows a success message and
    clears the fields. */
module UiSecurity {
  import opened Wrappers

  datatype PasswordData = PasswordData(currentPassword: string, newPassword: string, confirmPassword: string)

  const EmptyPasswords := PasswordData("", "", "")
  const MinPasswordLength := 6

  datatype Message = CurrentRequired | NewRequired | TooShort | Mismatch

  function MessageText(m: Message): string {
    match m
    case CurrentRequired => "Current password is required"
    case NewRequired => "New password is required"
    case TooShort => "Password must be at least 6 characters"
    case Mismatch => "Passwords do not match"
  }

  /** The messages beside the three fields; `None` is no message. */
  datatype PasswordErrors = PasswordErrors(currentPassword: Option<Message>, newPassword: Option<Message>,
                                           confirmPassword: Option<Message>)

  const NoErrors := PasswordErrors(None, None, None)

  predicate Clear(e: PasswordErrors) {
    e.currentPassword.None? && e.newPassword.None? && e.confirmPassword.None?
  }

  /** The validation in `handlePasswordChange`. */
  function Validate(p: PasswordData): (e: PasswordErrors)
    ensures e.currentPassword == None || e.currentPassword == Some(CurrentRequired)
    ensures e.newPassword.None? ==> |p.newPassword| >= MinPasswordLength
    ensures e.confirmPassword.None? <==> p.newPassword == p.confirmPassword
  {
    PasswordErrors(
      if p.currentPassword == "" then Some(CurrentRequired) else None,
      if p.newPassword == "" then Some(NewRequired)
      else if |p.newPassword| < MinPasswordLength then Some(TooShort)
      else None,
      if p.newPassword != p.confirmPassword then Some(Mismatch) else None)
  }

  /** The change goes ahead exactly when a current password is given and the new
      one has at least 6 characters and is typed identically twice. */
  lemma ValidIff(p: PasswordData)
    ensures Clear(Validate(p)) <==>
      p.currentPassword != "" && |p.newPassword| >= MinPasswordLength && p.newPassword == p.confirmPassword
  {
  }

  /** The messages are independent: an empty current password, a short new one
      and a mismatch are all reported together, and a mismatch is reported
      even when the new password is also too short. */
  lemma AllMessagesTogether()
    ensures Validate(PasswordData("", "abc", "abd")) == PasswordErrors(Some(CurrentRequired), Some(TooShort), Some(Mismatch))
  {
  }

  class PasswordForm {
    var isSaving: bool
    var passwordData: PasswordData
    var errors: PasswordErrors
    var successMessage: string

    constructor ()
      ensures !isSaving && passwordData == EmptyPasswords && errors == NoErrors && successMessage == ""
    {
      isSaving := false;
      passwordData := EmptyPasswords;
      errors := NoErrors;
      successMessage := "";
    }

    method Edit(p: PasswordData)
      modifies this
      ensures passwordData == p
      ensures isSaving == old(isSaving) && errors == old(errors) && successMessage == old(successMessage)
    {
      passwordData := p;
    }

    /** `handlePasswordChange`: invalid input leaves the fields and shows the
        messages; valid input clears the fields and shows the success message. */
    method HandlePasswordChange()
      modifies this
      ensures !isSaving
      ensures errors == Validate(old(passwordData))
      ensures !Clear(errors) ==> passwordData == old(passwordData) && successMessage == ""
      ensures Clear(errors) ==> passwordData == EmptyPasswords && successMessage == "Password changed successfully!"
    {
      isSaving := true;
      errors := NoErrors;
      successMessage := "";
      var e := Validate(passwordData);
      if !Clear(e) {
        errors := e;
      } else {
        successMessage := "Password changed successfully!";
        passwordData := EmptyPasswords;
      }
      isSaving := false;
    }
  }
}
