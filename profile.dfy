/** The account settings page: a profile form (name and e-mail) and a password form, each with
    its own progress, error and success state. Requests are recorded, and their responses
    arrive through the `On...` callbacks. Whether Angular's e-mail validator accepts the e-mail
    field is passed in. */
module Profile {
  import opened Wrappers
  import opened PayloadTypes
  import Initials
  import SeoService

  /** The shortest new password the form accepts. */
  const MinPasswordLength := 8

  const ProfileFallback := "Failed to update profile"
  const PasswordFallback := "Failed to change password"

  /** `passwordMatchValidator`: the group error `passwordMismatch` exactly when the new password
      and its confirmation differ. */
  function PasswordMismatch(newPassword: string, confirmNewPassword: string): (mismatch: bool)
    ensures mismatch <==> newPassword != confirmNewPassword
  {
    newPassword != confirmNewPassword
  }

  /** The password form is valid: every field filled, the new password of at least eight
      characters, and no mismatch. */
  predicate PasswordFormValid(currentPassword: string, newPassword: string, confirmNewPassword: string)
    ensures PasswordFormValid(currentPassword, newPassword, confirmNewPassword) <==>
              currentPassword != "" && |newPassword| >= MinPasswordLength && confirmNewPassword == newPassword
  {
    currentPassword != "" && newPassword != "" && |newPassword| >= MinPasswordLength &&
    confirmNewPassword != "" && !PasswordMismatch(newPassword, confirmNewPassword)
  }

  /** The profile form is valid: both fields filled and the e-mail accepted. */
  predicate ProfileFormValid(name: string, email: string, emailAccepted: bool)
    ensures ProfileFormValid(name, email, emailAccepted) ==> name != "" && email != ""
    ensures !emailAccepted ==> !ProfileFormValid(name, email, emailAccepted)
  {
    name != "" && email != "" && emailAccepted
  }

  /** A valid password form holds a confirmed new password of at least eight characters. */
  lemma ValidPasswordForm(currentPassword: string, newPassword: string, confirmNewPassword: string)
    requires PasswordFormValid(currentPassword, newPassword, confirmNewPassword)
    ensures newPassword == confirmNewPassword && |newPassword| >= MinPasswordLength && currentPassword != ""
  {
  }

  /** The avatar placeholder, `getInitials(name || email)`: at most two upper-cased word
      initials of the name, or of the e-mail address when the name is empty. */
  function AvatarInitials(user: User): (r: string)
    ensures |r| <= 2
    ensures user.name != "" ==> r == Initials.CappedInitials(user.name)
    ensures user.name == "" ==> r == Initials.CappedInitials(user.email)
  {
    Initials.CappedInitials(if user.name != "" then user.name else user.email)
  }

  /** `setupSEO()`: the settings page is titled and kept out of search indexes. */
  function SettingsSeo(): (d: SeoService.SeoData)
    ensures d.noIndex && d.title == "Account Settings"
    ensures d.image == SeoService.NoImage
  {
    SeoService.SeoData("Account Settings", "Manage your account information and preferences",
                       SeoService.NoImage, "", "", "", true, "", "", "")
  }

  /** `user?.field || ''`. */
  function FieldOf(user: Option<User>, email: bool): (r: string)
    ensures user.None? ==> r == ""
    ensures user.Some? ==> r == (if email then user.value.email else user.value.name)
  {
    if user.None? then "" else if email then user.value.email else user.value.name
  }

  class ProfileComponent {
    var name: string
    var email: string
    var currentPassword: string
    var newPassword: string
    var confirmNewPassword: string

    var isUpdatingProfile: bool
    var isChangingPassword: bool
    var profileError: Option<string>
    var profileSuccess: bool
    var passwordError: Option<string>
    var passwordSuccess: bool

    /** The route of the last navigation, the SEO data set, and the requests made. */
    var navigatedTo: Option<string>
    var seo: Option<SeoService.SeoData>
    var profileUpdates: seq<(string, string)>
    var passwordChanges: seq<(string, string)>

    constructor()
      ensures name == "" && email == "" && currentPassword == "" && newPassword == "" && confirmNewPassword == ""
      ensures !isUpdatingProfile && !isChangingPassword && !profileSuccess && !passwordSuccess
      ensures profileError.None? && passwordError.None?
      ensures navigatedTo.None? && seo.None? && profileUpdates == [] && passwordChanges == []
    {
      name, email := "", "";
      currentPassword, newPassword, confirmNewPassword := "", "", "";
      isUpdatingProfile, isChangingPassword := false, false;
      profileError, passwordError := None, None;
      profileSuccess, passwordSuccess := false, false;
      navigatedTo, seo := None, None;
      profileUpdates, passwordChanges := [], [];
    }

    /** `ngOnInit()`: without a session the login page opens and nothing else happens; with one
        the forms are filled from the current user and the page's SEO data is set. */
    method OnInit(authenticated: bool, currentUser: Option<User>)
      modifies this
      ensures !authenticated ==>
                navigatedTo == Some("/login") && seo == old(seo) && name == old(name) && email == old(email) &&
                currentPassword == old(currentPassword) && newPassword == old(newPassword) &&
                confirmNewPassword == old(confirmNewPassword)
      ensures authenticated ==>
                name == FieldOf(currentUser, false) && email == FieldOf(currentUser, true) &&
                currentPassword == "" && newPassword == "" && confirmNewPassword == "" &&
                seo == Some(SettingsSeo()) && navigatedTo == old(navigatedTo)
      ensures isUpdatingProfile == old(isUpdatingProfile) && isChangingPassword == old(isChangingPassword)
      ensures profileError == old(profileError) && profileSuccess == old(profileSuccess)
      ensures passwordError == old(passwordError) && passwordSuccess == old(passwordSuccess)
      ensures profileUpdates == old(profileUpdates) && passwordChanges == old(passwordChanges)
    {
      if !authenticated {
        navigatedTo := Some("/login");
        return;
      }
      name := FieldOf(currentUser, false);
      email := FieldOf(currentUser, true);
      currentPassword, newPassword, confirmNewPassword := "", "", "";
      seo := Some(SettingsSeo());
    }

    /** `updateProfile()`: with a valid form, the update is sent and the messages cleared;
        otherwise nothing happens. The password form is not touched. */
    method UpdateProfile(emailAccepted: bool)
      modifies this
      ensures ProfileFormValid(old(name), old(email), emailAccepted) ==>
                isUpdatingProfile && profileError.None? && !profileSuccess &&
                profileUpdates == old(profileUpdates) + [(old(name), old(email))]
      ensures !ProfileFormValid(old(name), old(email), emailAccepted) ==>
                isUpdatingProfile == old(isUpdatingProfile) && profileError == old(profileError) &&
                profileSuccess == old(profileSuccess) && profileUpdates == old(profileUpdates)
      ensures name == old(name) && email == old(email)
      ensures currentPassword == old(currentPassword) && newPassword == old(newPassword)
      ensures confirmNewPassword == old(confirmNewPassword) && passwordChanges == old(passwordChanges)
      ensures isChangingPassword == old(isChangingPassword) && passwordError == old(passwordError)
      ensures passwordSuccess == old(passwordSuccess) && navigatedTo == old(navigatedTo) && seo == old(seo)
    {
      if name != "" && email != "" && emailAccepted {
        isUpdatingProfile := true;
        profileError := None;
        profileSuccess := false;
        profileUpdates := profileUpdates + [(name, email)];
      }
    }

    /** The update's success: the progress stops and the success message shows. */
    method OnProfileUpdated()
      modifies this
      ensures !isUpdatingProfile && profileSuccess && profileError == old(profileError)
      ensures name == old(name) && email == old(email) && profileUpdates == old(profileUpdates)
      ensures currentPassword == old(currentPassword) && newPassword == old(newPassword)
      ensures confirmNewPassword == old(confirmNewPassword) && passwordChanges == old(passwordChanges)
      ensures isChangingPassword == old(isChangingPassword) && passwordError == old(passwordError)
      ensures passwordSuccess == old(passwordSuccess) && navigatedTo == old(navigatedTo) && seo == old(seo)
    {
      isUpdatingProfile := false;
      profileSuccess := true;
    }

    /** The update's error: the server's message, else the fixed one. */
    method OnProfileUpdateFailed(error: ApiError)
      modifies this
      ensures !isUpdatingProfile && profileError == Some(ServerMessageOr(error, ProfileFallback))
      ensures profileError.value != ""
      ensures profileSuccess == old(profileSuccess) && name == old(name) && email == old(email)
      ensures profileUpdates == old(profileUpdates)
      ensures currentPassword == old(currentPassword) && newPassword == old(newPassword)
      ensures confirmNewPassword == old(confirmNewPassword) && passwordChanges == old(passwordChanges)
      ensures isChangingPassword == old(isChangingPassword) && passwordError == old(passwordError)
      ensures passwordSuccess == old(passwordSuccess) && navigatedTo == old(navigatedTo) && seo == old(seo)
    {
      isUpdatingProfile := false;
      profileError := Some(ServerMessageOr(error, ProfileFallback));
    }

    /** The timer set on success, three seconds later. */
    method OnProfileSuccessExpired()
      modifies this
      ensures !profileSuccess && isUpdatingProfile == old(isUpdatingProfile) && profileError == old(profileError)
      ensures name == old(name) && email == old(email) && profileUpdates == old(profileUpdates)
      ensures currentPassword == old(currentPassword) && newPassword == old(newPassword)
      ensures confirmNewPassword == old(confirmNewPassword) && passwordChanges == old(passwordChanges)
      ensures isChangingPassword == old(isChangingPassword) && passwordError == old(passwordError)
      ensures passwordSuccess == old(passwordSuccess) && navigatedTo == old(navigatedTo) && seo == old(seo)
    {
      profileSuccess := false;
    }

    /** `changePassword()`: with a valid form, the current and new passwords are sent and the
        messages cleared; otherwise nothing happens. The profile form is not touched. */
    method ChangePassword()
      modifies this
      ensures PasswordFormValid(old(currentPassword), old(newPassword), old(confirmNewPassword)) ==>
                isChangingPassword && passwordError.None? && !passwordSuccess &&
                passwordChanges == old(passwordChanges) + [(old(currentPassword), old(newPassword))]
      ensures !PasswordFormValid(old(currentPassword), old(newPassword), old(confirmNewPassword)) ==>
                isChangingPassword == old(isChangingPassword) && passwordError == old(passwordError) &&
                passwordSuccess == old(passwordSuccess) && passwordChanges == old(passwordChanges)
      ensures currentPassword == old(currentPassword) && newPassword == old(newPassword)
      ensures confirmNewPassword == old(confirmNewPassword) && profileUpdates == old(profileUpdates)
      ensures name == old(name) && email == old(email)
      ensures isUpdatingProfile == old(isUpdatingProfile) && profileError == old(profileError)
      ensures profileSuccess == old(profileSuccess) && navigatedTo == old(navigatedTo) && seo == old(seo)
    {
      if currentPassword != "" && newPassword != "" && |newPassword| >= MinPasswordLength &&
         confirmNewPassword != "" && newPassword == confirmNewPassword {
        isChangingPassword := true;
        passwordError := None;
        passwordSuccess := false;
        passwordChanges := passwordChanges + [(currentPassword, newPassword)];
      }
    }

    /** Success: the form is reset to empty fields. */
    method OnPasswordChanged()
      modifies this
      ensures !isChangingPassword && passwordSuccess && passwordError == old(passwordError)
      ensures currentPassword == "" && newPassword == "" && confirmNewPassword == ""
      ensures !PasswordFormValid(currentPassword, newPassword, confirmNewPassword)
      ensures passwordChanges == old(passwordChanges)
      ensures name == old(name) && email == old(email) && profileUpdates == old(profileUpdates)
      ensures isUpdatingProfile == old(isUpdatingProfile) && profileError == old(profileError)
      ensures profileSuccess == old(profileSuccess) && navigatedTo == old(navigatedTo) && seo == old(seo)
    {
      isChangingPassword := false;
      passwordSuccess := true;
      currentPassword, newPassword, confirmNewPassword := "", "", "";
    }

    /** The change's error: the server's message, else the fixed one; the form keeps its values. */
    method OnPasswordChangeFailed(error: ApiError)
      modifies this
      ensures !isChangingPassword && passwordError == Some(ServerMessageOr(error, PasswordFallback))
      ensures passwordError.value != ""
      ensures passwordSuccess == old(passwordSuccess) && currentPassword == old(currentPassword)
      ensures newPassword == old(newPassword) && confirmNewPassword == old(confirmNewPassword)
      ensures passwordChanges == old(passwordChanges)
      ensures name == old(name) && email == old(email) && profileUpdates == old(profileUpdates)
      ensures isUpdatingProfile == old(isUpdatingProfile) && profileError == old(profileError)
      ensures profileSuccess == old(profileSuccess) && navigatedTo == old(navigatedTo) && seo == old(seo)
    {
      isChangingPassword := false;
      passwordError := Some(ServerMessageOr(error, PasswordFallback));
    }

    /** The timer set on success, three seconds later. */
    method OnPasswordSuccessExpired()
      modifies this
      ensures !passwordSuccess && isChangingPassword == old(isChangingPassword) && passwordError == old(passwordError)
      ensures currentPassword == old(currentPassword) && newPassword == old(newPassword)
      ensures confirmNewPassword == old(confirmNewPassword) && passwordChanges == old(passwordChanges)
      ensures name == old(name) && email == old(email) && profileUpdates == old(profileUpdates)
      ensures isUpdatingProfile == old(isUpdatingProfile) && profileError == old(profileError)
      ensures profileSuccess == old(profileSuccess) && navigatedTo == old(navigatedTo) && seo == old(seo)
    {
      passwordSuccess := false;
    }
  }
}
