/** The profile page: the editable customer details, the password-change form and
    its validation, and the toast that reports the outcome. Only the placeholder
    path is modelled: saving and changing the password do not reach a server, and
    the 500 ms delay is a separate step that completes the action. */
module Profile {
  import opened Common
  import opened AuthContext

  datatype Toast = Toast(show: bool, message: string, kind: string)

  /** The toast at rest, and what its 3-second timer puts back. */
  const HiddenToast := Toast(false, "", "error")

  datatype UserData = UserData(fullName: string, email: string, phoneNumber: string, address: string)

  datatype UserField = FullName | Email | PhoneNumber | AddressField

  datatype Passwords = Passwords(currentPassword: string, newPassword: string, confirmPassword: string)

  datatype PasswordField = CurrentPassword | NewPassword | ConfirmPassword

  const NoPasswords := Passwords("", "", "")

  const MismatchMessage := "New passwords do not match."
  const TooShortMessage := "Password must be at least 6 characters long."
  const PasswordChangedMessage := "Password changed successfully! (Using placeholder - changes not saved)"
  const ProfileUpdatedMessage := "Profile updated successfully! (Using placeholder - changes not saved)"

  /** The profile form's `required` inputs are filled (the address is optional). */
  predicate ProfileFormComplete(d: UserData) {
    d.fullName != "" && d.email != "" && d.phoneNumber != ""
  }

  /** The three `required` password inputs are filled. */
  predicate PasswordFormComplete(p: Passwords) {
    p.currentPassword != "" && p.newPassword != "" && p.confirmPassword != ""
  }

  function UserFieldOf(d: UserData, name: UserField): string {
    match name
    case FullName => d.fullName
    case Email => d.email
    case PhoneNumber => d.phoneNumber
    case AddressField => d.address
  }

  /** `handleUserDataChange`: only the named field changes. */
  function WithUserField(d: UserData, name: UserField, value: string): (r: UserData)
    ensures UserFieldOf(r, name) == value
    ensures forall other :: other != name ==> UserFieldOf(r, other) == UserFieldOf(d, other)
  {
    match name
    case FullName => d.(fullName := value)
    case Email => d.(email := value)
    case PhoneNumber => d.(phoneNumber := value)
    case AddressField => d.(address := value)
  }

  function PasswordOf(p: Passwords, name: PasswordField): string {
    match name
    case CurrentPassword => p.currentPassword
    case NewPassword => p.newPassword
    case ConfirmPassword => p.confirmPassword
  }

  /** `handlePasswordChange`: only the named field changes. */
  function WithPassword(p: Passwords, name: PasswordField, value: string): (r: Passwords)
    ensures PasswordOf(r, name) == value
    ensures forall other :: other != name ==> PasswordOf(r, other) == PasswordOf(p, other)
  {
    match name
    case CurrentPassword => p.(currentPassword := value)
    case NewPassword => p.(newPassword := value)
    case ConfirmPassword => p.(confirmPassword := value)
  }

  /** The two checks of `handleChangePassword`, in order: the error to show, or
      None when the change may go ahead. The current password is not checked. */
  function PasswordError(p: Passwords): (r: Option<string>)
    ensures r.None? <==> p.newPassword == p.confirmPassword && |p.newPassword| >= 6
    ensures p.newPassword != p.confirmPassword ==> r == Some(MismatchMessage)
    ensures p.newPassword == p.confirmPassword && |p.newPassword| < 6 ==> r == Some(TooShortMessage)
  {
    if p.newPassword != p.confirmPassword then Some(MismatchMessage)
    else if |p.newPassword| < 6 then Some(TooShortMessage)
    else None
  }

  /** The placeholder `loadUserData`: the session user's fields where they are
      truthy, fixed sample values otherwise, and a fixed address. */
  function PlaceholderUserData(user: Option<User>): (d: UserData)
    ensures user.Some? && Truthy(user.value.name) ==> d.fullName == user.value.name.value
    ensures user.Some? && Truthy(user.value.email) ==> d.email == user.value.email.value
    ensures user.Some? && Truthy(user.value.phoneNumber) ==> d.phoneNumber == user.value.phoneNumber.value
    ensures (user.None? || !Truthy(user.value.name)) ==> d.fullName == "John Doe"
    ensures (user.None? || !Truthy(user.value.email)) ==> d.email == "john.doe@example.com"
    ensures (user.None? || !Truthy(user.value.phoneNumber)) ==> d.phoneNumber == "+1234567890"
    ensures d.address == "123 Main Street, City, State 12345"
  {
    match user
    case None => UserData("John Doe", "john.doe@example.com", "+1234567890", "123 Main Street, City, State 12345")
    case Some(u) =>
      UserData(OrElse(u.name, "John Doe"), OrElse(u.email, "john.doe@example.com"),
               OrElse(u.phoneNumber, "+1234567890"), "123 Main Street, City, State 12345")
  }

  class ProfilePage {
    var userData: UserData
    var passwords: Passwords
    var toast: Toast
    /** A profile save is waiting for its delay. */
    var loading: bool
    /** A password change is waiting for its delay. */
    var passwordLoading: bool

    constructor ()
      ensures userData == UserData("", "", "", "") && passwords == NoPasswords
      ensures toast == HiddenToast && !loading && !passwordLoading
    {
      userData := UserData("", "", "", "");
      passwords := NoPasswords;
      toast := HiddenToast;
      loading, passwordLoading := false, false;
    }

    /** `showToast`: shown with the message; the kind defaults to "error". */
    method ShowToast(message: string, kind: string := "error")
      modifies this
      ensures toast == Toast(true, message, kind)
      ensures userData == old(userData) && passwords == old(passwords)
      ensures loading == old(loading) && passwordLoading == old(passwordLoading)
    {
      toast := Toast(true, message, kind);
    }

    /** The toast's timer runs out. */
    method HideToast()
      modifies this
      ensures toast == HiddenToast
      ensures userData == old(userData) && passwords == old(passwords)
      ensures loading == old(loading) && passwordLoading == old(passwordLoading)
    {
      toast := HiddenToast;
    }

    /** The load effect, run while the session is authenticated. */
    method LoadUserData(auth: AuthSession)
      modifies this
      ensures auth.isAuthenticated ==> userData == PlaceholderUserData(auth.user)
      ensures !auth.isAuthenticated ==> userData == old(userData)
      ensures passwords == old(passwords) && toast == old(toast)
      ensures loading == old(loading) && passwordLoading == old(passwordLoading)
    {
      if auth.isAuthenticated {
        userData := PlaceholderUserData(auth.user);
      }
    }

    method HandleUserDataChange(name: UserField, value: string)
      modifies this
      ensures userData == WithUserField(old(userData), name, value)
      ensures passwords == old(passwords) && toast == old(toast)
      ensures loading == old(loading) && passwordLoading == old(passwordLoading)
    {
      userData := WithUserField(userData, name, value);
    }

    method HandlePasswordChange(name: PasswordField, value: string)
      modifies this
      ensures passwords == WithPassword(old(passwords), name, value)
      ensures userData == old(userData) && toast == old(toast)
      ensures loading == old(loading) && passwordLoading == old(passwordLoading)
    {
      passwords := WithPassword(passwords, name, value);
    }

    /** `handleChangePassword` up to its delay: a failed check shows its error and
        changes nothing else; a passing one starts the (simulated) request. The
        browser submits only a filled form, and not while a change is loading. */
    method HandleChangePassword()
      requires PasswordFormComplete(passwords) && !passwordLoading
      modifies this
      ensures PasswordError(old(passwords)).Some? ==>
                toast == Toast(true, PasswordError(old(passwords)).value, "error")
                && passwordLoading == old(passwordLoading)
      ensures PasswordError(old(passwords)).None? ==> passwordLoading && toast == old(toast)
      ensures passwords == old(passwords) && userData == old(userData) && loading == old(loading)
    {
      var error := PasswordError(passwords);
      if error.Some? {
        ShowToast(error.value);
        return;
      }
      passwordLoading := true;
    }

    /** The delay of a password change ends: success is reported and the three
        password fields are emptied. */
    method PasswordChangeSettled()
      requires passwordLoading
      modifies this
      ensures toast == Toast(true, PasswordChangedMessage, "success")
      ensures passwords == NoPasswords && !passwordLoading
      ensures userData == old(userData) && loading == old(loading)
    {
      ShowToast(PasswordChangedMessage, "success");
      passwords := NoPasswords;
      passwordLoading := false;
    }

    /** `handleUpdateProfile` up to its delay; submitted only with the required
        details filled and no save loading. */
    method HandleUpdateProfile()
      requires ProfileFormComplete(userData) && !loading
      modifies this
      ensures loading
      ensures userData == old(userData) && passwords == old(passwords) && toast == old(toast)
      ensures passwordLoading == old(passwordLoading)
    {
      loading := true;
    }

    /** The delay of a profile save ends: success is reported, nothing is sent. */
    method ProfileUpdateSettled()
      requires loading
      modifies this
      ensures toast == Toast(true, ProfileUpdatedMessage, "success") && !loading
      ensures userData == old(userData) && passwords == old(passwords)
      ensures passwordLoading == old(passwordLoading)
    {
      ShowToast(ProfileUpdatedMessage, "success");
      loading := false;
    }
  }

  /** A change whose two new passwords agree and are long enough ends with all
      three fields empty and a success toast; any other attempt leaves the fields
      as typed and shows the first failing check. */
  method ChangePasswordFlow(page: ProfilePage)
    requires PasswordFormComplete(page.passwords) && !page.passwordLoading
    modifies page
    ensures PasswordError(old(page.passwords)).None? ==>
              page.passwords == NoPasswords && page.toast == Toast(true, PasswordChangedMessage, "success")
              && !page.passwordLoading
    ensures PasswordError(old(page.passwords)).Some? ==>
              page.passwords == old(page.passwords)
              && page.toast == Toast(true, PasswordError(old(page.passwords)).value, "error")
  {
    page.HandleChangePassword();
    if page.passwordLoading && PasswordError(page.passwords).None? {
      page.PasswordChangeSettled();
    }
  }
}
