/**
 * The profile page: the profile and password validators, the change handlers
 * that clear a field's error, the password-visibility toggles, saving, the
 * password change and cancelling an edit.
 */
module ProfilePage {
  import opened Js
  import opened Helpers

  datatype ProfileForm = ProfileForm(name: string, email: string, phone: string, address: string)

  /** A key is present only when that field has an error. */
  datatype ProfileErrors = ProfileErrors(name: Option<string>, email: Option<string>, phone: Option<string>, address: Option<string>)

  datatype PasswordForm = PasswordForm(currentPassword: string, newPassword: string, confirmPassword: string)

  datatype PasswordErrors = PasswordErrors(currentPassword: Option<string>, newPassword: Option<string>, confirmPassword: Option<string>)

  const NoProfileErrors := ProfileErrors(None, None, None, None)
  const NoPasswordErrors := PasswordErrors(None, None, None)
  const EmptyPasswords := PasswordForm("", "", "")

  const NameRequired := "Name is required"
  const EmailRequired := "Email is required"
  const EmailInvalid := "Please enter a valid email address"
  const PhoneInvalid := "Please enter a valid phone number"
  const CurrentRequired := "Current password is required"
  const NewRequired := "New password is required"
  const NewTooShort := "Password must be at least 8 characters"
  const ConfirmRequired := "Please confirm your new password"
  const ConfirmMismatch := "Passwords do not match"
  const ProfileSaved := "Profile updated successfully"
  const PasswordChanged := "Password changed successfully"

  /** The signed-in user as the page receives it; phone and address may be missing. */
  datatype User = User(name: string, email: string, phone: Option<string>, address: Option<string>)

  /** The profile form of a user: a missing phone or address becomes ''. */
  function FormOf(u: User): (f: ProfileForm)
    ensures f.name == u.name && f.email == u.email
    ensures f.phone == (if u.phone.Some? then u.phone.value else "")
    ensures f.address == (if u.address.Some? then u.address.value else "")
  {
    ProfileForm(u.name, u.email, StrOr(u.phone, ""), StrOr(u.address, ""))
  }

  // ---------------------------------------------------------------- profile

  /** `[\d\s\-\(\)\+]`. */
  predicate PhoneChar(c: char)
  {
    IsDigit(c) || IsSpace(c) || c == '-' || c == '(' || c == ')' || c == '+'
  }

  /** `/^[\d\s\-\(\)\+]+$/.test(s)`. */
  predicate IsPhone(s: string)
  {
    |s| > 0 && forall k :: 0 <= k < |s| ==> PhoneChar(s[k])
  }

  /** A string the e-mail pattern accepts is never blank, so the 'required' check never hides a pattern error. */
  lemma ValidEmailNotBlank(s: string)
    ensures IsValidEmail(s) ==> !IsBlank(s)
  {
    if IsValidEmail(s) {
      var at: nat, dot: nat :| at < |s| && dot < |s| && EmailMatchAt(s, at, dot);
      assert EmailChar(s[0]);
    }
  }

  /** What the profile validator accepts. */
  predicate ProfileValid(f: ProfileForm)
  {
    !IsBlank(f.name) && IsValidEmail(f.email) && (f.phone == "" || IsPhone(f.phone))
  }

  /** The error map `validateProfileForm` builds for a form. */
  function ProfileErrorsOf(f: ProfileForm): ProfileErrors
  {
    ProfileErrors(
      if IsBlank(f.name) then Some(NameRequired) else None,
      if IsBlank(f.email) then Some(EmailRequired)
      else if !IsValidEmail(f.email) then Some(EmailInvalid)
      else None,
      if f.phone != "" && !IsPhone(f.phone) then Some(PhoneInvalid) else None,
      None)
  }

  /** An error-free map is exactly what a valid form gets. */
  lemma NoErrorsIffValid(f: ProfileForm)
    ensures ProfileErrorsOf(f) == NoProfileErrors <==> ProfileValid(f)
  {
    ValidEmailNotBlank(f.email);
  }

  /**
   * `validateProfileForm`: the name must not be blank, the e-mail must be
   * present and match the e-mail pattern, a phone (when given) may hold only
   * digits, spaces and '-', '(', ')', '+'; the address is never checked.
   */
  method ValidateProfile(f: ProfileForm) returns (errors: ProfileErrors, isValid: bool)
    ensures errors == ProfileErrorsOf(f)
    ensures isValid <==> ProfileValid(f)
    ensures isValid <==> errors == NoProfileErrors
  {
    errors := NoProfileErrors;
    isValid := true;
    BlankIffTrimEmpty(f.name);
    BlankIffTrimEmpty(f.email);
    if Trim(f.name) == "" {
      errors := errors.(name := Some(NameRequired));
      isValid := false;
    }
    if Trim(f.email) == "" {
      errors := errors.(email := Some(EmailRequired));
      isValid := false;
    } else if !IsValidEmail(f.email) {
      errors := errors.(email := Some(EmailInvalid));
      isValid := false;
    }
    if f.phone != "" && !IsPhone(f.phone) {
      errors := errors.(phone := Some(PhoneInvalid));
      isValid := false;
    }
    NoErrorsIffValid(f);
  }

  // --------------------------------------------------------------- password

  /** The messages `validatePasswordForm` records for a password form, required before the other rules. */
  function PasswordErrorsOf(f: PasswordForm): PasswordErrors
  {
    PasswordErrors(
      if f.currentPassword == "" then Some(CurrentRequired) else None,
      if f.newPassword == "" then Some(NewRequired)
      else if |f.newPassword| < 8 then Some(NewTooShort)
      else None,
      if f.confirmPassword == "" then Some(ConfirmRequired)
      else if f.newPassword != f.confirmPassword then Some(ConfirmMismatch)
      else None)
  }

  /**
   * `validatePasswordForm`: the current password is required, the new one is
   * required and at least 8 characters long, and the confirmation is required
   * and equal to the new one.
   */
  method ValidatePassword(f: PasswordForm) returns (errors: PasswordErrors, isValid: bool)
    ensures isValid <==> errors == NoPasswordErrors
    ensures isValid <==> f.currentPassword != "" && |f.newPassword| >= 8 && f.confirmPassword == f.newPassword
    ensures errors == PasswordErrorsOf(f)
    ensures errors.currentPassword == if f.currentPassword == "" then Some(CurrentRequired) else None
    ensures errors.newPassword == if f.newPassword == "" then Some(NewRequired)
                                  else if |f.newPassword| < 8 then Some(NewTooShort)
                                  else None
    ensures errors.confirmPassword == if f.confirmPassword == "" then Some(ConfirmRequired)
                                      else if f.newPassword != f.confirmPassword then Some(ConfirmMismatch)
                                      else None
  {
    errors := NoPasswordErrors;
    isValid := true;
    if f.currentPassword == "" {
      errors := errors.(currentPassword := Some(CurrentRequired));
      isValid := false;
    }
    if f.newPassword == "" {
      errors := errors.(newPassword := Some(NewRequired));
      isValid := false;
    } else if |f.newPassword| < 8 {
      errors := errors.(newPassword := Some(NewTooShort));
      isValid := false;
    }
    if f.confirmPassword == "" {
      errors := errors.(confirmPassword := Some(ConfirmRequired));
      isValid := false;
    } else if f.newPassword != f.confirmPassword {
      errors := errors.(confirmPassword := Some(ConfirmMismatch));
      isValid := false;
    }
  }

  // ------------------------------------------------------- field edits, toggles

  datatype ProfileField = NameField | EmailField | PhoneField | AddressField
  datatype PasswordField = CurrentField | NewField | ConfirmField

  /** `{ ...prev, [name]: value }` on the profile form. */
  function SetProfileField(f: ProfileForm, field: ProfileField, value: string): (r: ProfileForm)
    ensures field == NameField ==> r == f.(name := value)
    ensures field == EmailField ==> r == f.(email := value)
    ensures field == PhoneField ==> r == f.(phone := value)
    ensures field == AddressField ==> r == f.(address := value)
  {
    match field
    case NameField => f.(name := value)
    case EmailField => f.(email := value)
    case PhoneField => f.(phone := value)
    case AddressField => f.(address := value)
  }

  /** The field's error is dropped when it has one; the others stay. */
  function ClearProfileError(e: ProfileErrors, field: ProfileField): (r: ProfileErrors)
    ensures field == NameField ==> r == e.(name := None)
    ensures field == EmailField ==> r == e.(email := None)
    ensures field == PhoneField ==> r == e.(phone := None)
    ensures field == AddressField ==> r == e.(address := None)
  {
    match field
    case NameField => e.(name := None)
    case EmailField => e.(email := None)
    case PhoneField => e.(phone := None)
    case AddressField => e.(address := None)
  }

  function SetPasswordField(f: PasswordForm, field: PasswordField, value: string): (r: PasswordForm)
    ensures field == CurrentField ==> r == f.(currentPassword := value)
    ensures field == NewField ==> r == f.(newPassword := value)
    ensures field == ConfirmField ==> r == f.(confirmPassword := value)
  {
    match field
    case CurrentField => f.(currentPassword := value)
    case NewField => f.(newPassword := value)
    case ConfirmField => f.(confirmPassword := value)
  }

  function ClearPasswordError(e: PasswordErrors, field: PasswordField): (r: PasswordErrors)
    ensures field == CurrentField ==> r == e.(currentPassword := None)
    ensures field == NewField ==> r == e.(newPassword := None)
    ensures field == ConfirmField ==> r == e.(confirmPassword := None)
  {
    match field
    case CurrentField => e.(currentPassword := None)
    case NewField => e.(newPassword := None)
    case ConfirmField => e.(confirmPassword := None)
  }

  /** Which of the three password inputs show their text. */
  datatype Visibility = Visibility(currentPassword: bool, newPassword: bool, confirmPassword: bool)

  /** `handleTogglePasswordVisibility`. */
  function Toggle(v: Visibility, field: PasswordField): (r: Visibility)
    ensures field == CurrentField ==> r == v.(currentPassword := !v.currentPassword)
    ensures field == NewField ==> r == v.(newPassword := !v.newPassword)
    ensures field == ConfirmField ==> r == v.(confirmPassword := !v.confirmPassword)
  {
    match field
    case CurrentField => v.(currentPassword := !v.currentPassword)
    case NewField => v.(newPassword := !v.newPassword)
    case ConfirmField => v.(confirmPassword := !v.confirmPassword)
  }

  /** Toggling the same flag twice restores the visibility; toggles of different flags commute. */
  lemma ToggleLaws(v: Visibility, a: PasswordField, b: PasswordField)
    ensures Toggle(Toggle(v, a), a) == v
    ensures Toggle(Toggle(v, a), b) == Toggle(Toggle(v, b), a)
  {
  }

  // -------------------------------------------------------------------- page

  class Page {
    const user: User
    var profile: ProfileForm
    var passwords: PasswordForm
    var editMode: bool
    var visibility: Visibility
    var profileErrors: ProfileErrors
    var passwordErrors: PasswordErrors
    var success: Option<string>

    constructor (u: User)
      ensures user == u && profile == FormOf(u) && passwords == EmptyPasswords
      ensures !editMode && visibility == Visibility(false, false, false)
      ensures profileErrors == NoProfileErrors && passwordErrors == NoPasswordErrors && success.None?
    {
      user := u;
      profile, passwords, editMode := FormOf(u), EmptyPasswords, false;
      visibility := Visibility(false, false, false);
      profileErrors, passwordErrors, success := NoProfileErrors, NoPasswordErrors, None;
    }

    /** `handleProfileChange`: the field takes the value and loses its error. */
    method ProfileChange(field: ProfileField, value: string)
      modifies this
      ensures profile == SetProfileField(old(profile), field, value)
      ensures profileErrors == ClearProfileError(old(profileErrors), field)
      ensures passwords == old(passwords) && passwordErrors == old(passwordErrors)
      ensures editMode == old(editMode) && visibility == old(visibility) && success == old(success)
    {
      profile := SetProfileField(profile, field, value);
      profileErrors := ClearProfileError(profileErrors, field);
    }

    /** `handlePasswordChange`. */
    method PasswordChange(field: PasswordField, value: string)
      modifies this
      ensures passwords == SetPasswordField(old(passwords), field, value)
      ensures passwordErrors == ClearPasswordError(old(passwordErrors), field)
      ensures profile == old(profile) && profileErrors == old(profileErrors)
      ensures editMode == old(editMode) && visibility == old(visibility) && success == old(success)
    {
      passwords := SetPasswordField(passwords, field, value);
      passwordErrors := ClearPasswordError(passwordErrors, field);
    }

    method ToggleVisibility(field: PasswordField)
      modifies this
      ensures visibility == Toggle(old(visibility), field)
      ensures profile == old(profile) && passwords == old(passwords) && editMode == old(editMode)
      ensures profileErrors == old(profileErrors) && passwordErrors == old(passwordErrors) && success == old(success)
    {
      visibility := Toggle(visibility, field);
    }

    /** `handleSaveProfile`: an invalid form only records its errors; a valid one leaves edit mode. */
    method SaveProfile() returns (saved: bool)
      modifies this`profileErrors, this`editMode, this`success
      ensures saved <==> ProfileValid(old(profile))
      ensures profileErrors == ProfileErrorsOf(old(profile))
      ensures editMode == (old(editMode) && !saved)
      ensures success == if saved then Some(ProfileSaved) else old(success)
    {
      var e;
      e, saved := ValidateProfile(profile);
      profileErrors := e;
      if saved {
        editMode := false;
        success := Some(ProfileSaved);
      }
    }

    /** `handleChangePassword`: on success all three password fields are emptied. */
    method ChangePassword()
      modifies this
      ensures var ok := old(passwords).currentPassword != "" && |old(passwords).newPassword| >= 8
                        && old(passwords).confirmPassword == old(passwords).newPassword;
        (ok ==> passwords == EmptyPasswords && passwordErrors == NoPasswordErrors
                && success == Some(PasswordChanged)) &&
        (!ok ==> passwords == old(passwords) && passwordErrors != NoPasswordErrors && success == old(success))
      ensures passwordErrors == PasswordErrorsOf(old(passwords))
      ensures profile == old(profile) && profileErrors == old(profileErrors)
      ensures editMode == old(editMode) && visibility == old(visibility)
    {
      var e, ok := ValidatePassword(passwords);
      passwordErrors := e;
      if !ok {
        return;
      }
      passwords := EmptyPasswords;
      success := Some(PasswordChanged);
    }

    /** The Cancel button: leave edit mode, restore the user's values and drop the errors. */
    method CancelEdit()
      modifies this
      ensures !editMode && profile == FormOf(user) && profileErrors == NoProfileErrors
      ensures passwords == old(passwords) && passwordErrors == old(passwordErrors)
      ensures visibility == old(visibility) && success == old(success)
    {
      editMode := false;
      profile := FormOf(user);
      profileErrors := NoProfileErrors;
    }
  }
}
