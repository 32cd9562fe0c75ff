/** The reset-password page: a new password and its confirmation, sent with the token of the
    reset link. A rejected token (status 400 or 401) switches the page to its "invalid link"
    state instead of showing an error. */
module ResetPassword {
  import opened Wrappers
  import opened PayloadTypes
  import Profile
  import SeoService

  const ErrorFallback := "Unable to reset password. Please try again."

  /** The form is valid: a password of at least eight characters, a confirmation, and no
      `passwordMismatch`. */
  predicate FormValid(password: string, confirmPassword: string)
    ensures FormValid(password, confirmPassword) <==>
              |password| >= Profile.MinPasswordLength && confirmPassword == password
  {
    password != "" && |password| >= Profile.MinPasswordLength && confirmPassword != "" &&
    !Profile.PasswordMismatch(password, confirmPassword)
  }

  /** `setupSEO()`: the page is titled and kept out of search indexes. */
  function ResetSeo(): (d: SeoService.SeoData)
    ensures d.noIndex && d.title == "Reset Password"
  {
    SeoService.SeoData("Reset Password", "Set a new password for your account",
                       SeoService.NoImage, "", "", "", true, "", "", "")
  }

  /** A request error rejects the link exactly for statuses 400 and 401. */
  predicate TokenRejected(error: ApiError)
    ensures TokenRejected(error) ==> 400 <= error.status < 500
  {
    error.status == 400 || error.status == 401
  }

  class ResetPasswordComponent {
    var password: string
    var confirmPassword: string
    var isLoading: bool
    var showPassword: bool
    var error: Option<string>
    var passwordReset: bool
    var tokenValid: bool
    /** The `token` query parameter, `None` when absent. */
    var resetToken: Option<string>
    var navigatedTo: Option<string>
    var seo: Option<SeoService.SeoData>
    /** The `resetPassword(token, password)` calls made. */
    var resets: seq<(string, string)>

    constructor()
      ensures password == "" && confirmPassword == "" && !isLoading && !showPassword && error.None?
      ensures !passwordReset && tokenValid && resetToken.None? && navigatedTo.None? && seo.None?
      ensures resets == []
    {
      password, confirmPassword := "", "";
      isLoading, showPassword := false, false;
      error := None;
      passwordReset := false;
      tokenValid := true;
      resetToken := None;
      navigatedTo, seo := None, None;
      resets := [];
    }

    /** `ngOnInit()`: an empty form, the SEO data, the token read from the query, the link
        marked invalid without a (non-empty) token, and the home page for a signed-in user. */
    method OnInit(token: Option<string>, authenticated: bool)
      modifies this
      ensures password == "" && confirmPassword == "" && seo == Some(ResetSeo())
      ensures resetToken == token
      ensures (token.None? || token == Some("")) ==> !tokenValid
      ensures !(token.None? || token == Some("")) ==> tokenValid == old(tokenValid)
      ensures authenticated ==> navigatedTo == Some("/")
      ensures !authenticated ==> navigatedTo == old(navigatedTo)
      ensures isLoading == old(isLoading) && error == old(error) && resets == old(resets)
      ensures passwordReset == old(passwordReset) && showPassword == old(showPassword)
    {
      password, confirmPassword := "", "";
      seo := Some(ResetSeo());
      resetToken := token;
      if token.None? || token == Some("") {
        tokenValid := false;
      }
      if authenticated {
        navigatedTo := Some("/");
      }
    }

    /** `onSubmit()`: with a valid form and a token, the reset is sent; otherwise nothing
        happens. */
    method OnSubmit()
      modifies this
      ensures FormValid(old(password), old(confirmPassword)) && old(resetToken).Some? && old(resetToken).value != "" ==>
                isLoading && error.None? && resets == old(resets) + [(old(resetToken).value, old(password))]
      ensures !(FormValid(old(password), old(confirmPassword)) && old(resetToken).Some? && old(resetToken).value != "") ==>
                isLoading == old(isLoading) && error == old(error) && resets == old(resets)
      ensures password == old(password) && confirmPassword == old(confirmPassword)
      ensures tokenValid == old(tokenValid) && passwordReset == old(passwordReset) && resetToken == old(resetToken)
      ensures showPassword == old(showPassword) && navigatedTo == old(navigatedTo) && seo == old(seo)
    {
      if password != "" && |password| >= Profile.MinPasswordLength && confirmPassword != "" &&
         password == confirmPassword && resetToken.Some? && resetToken.value != "" {
        isLoading := true;
        error := None;
        resets := resets + [(resetToken.value, password)];
      }
    }

    method OnResetSucceeded()
      modifies this
      ensures !isLoading && passwordReset
      ensures error == old(error) && tokenValid == old(tokenValid) && resets == old(resets)
      ensures password == old(password) && confirmPassword == old(confirmPassword) && showPassword == old(showPassword)
      ensures resetToken == old(resetToken) && navigatedTo == old(navigatedTo) && seo == old(seo)
    {
      isLoading := false;
      passwordReset := true;
    }

    /** The error callback: a rejected token invalidates the link and sets no message; any other
        error shows the server's message, else the fixed one. */
    method OnResetFailed(e: ApiError)
      modifies this
      ensures !isLoading && passwordReset == old(passwordReset) && resets == old(resets)
      ensures TokenRejected(e) ==> !tokenValid && error == old(error)
      ensures !TokenRejected(e) ==>
                tokenValid == old(tokenValid) && error == Some(ServerMessageOr(e, ErrorFallback)) &&
                error.value != ""
      ensures password == old(password) && confirmPassword == old(confirmPassword) && showPassword == old(showPassword)
      ensures resetToken == old(resetToken) && navigatedTo == old(navigatedTo) && seo == old(seo)
    {
      isLoading := false;
      if e.status == 400 || e.status == 401 {
        tokenValid := false;
      } else {
        error := Some(ServerMessageOr(e, ErrorFallback));
      }
    }

    method TogglePasswordVisibility()
      modifies this
      ensures showPassword == !old(showPassword)
      ensures isLoading == old(isLoading) && error == old(error) && tokenValid == old(tokenValid)
      ensures passwordReset == old(passwordReset) && resets == old(resets)
      ensures password == old(password) && confirmPassword == old(confirmPassword)
      ensures resetToken == old(resetToken) && navigatedTo == old(navigatedTo) && seo == old(seo)
    {
      showPassword := !showPassword;
    }
  }

  /** A page opened without a token never sends a reset, whatever is typed. */
  method NoTokenNoReset(page: ResetPasswordComponent, authenticated: bool, password: string)
    modifies page
    ensures page.resets == old(page.resets) && !page.tokenValid
  {
    page.OnInit(None, authenticated);
    page.password := password;
    page.confirmPassword := password;
    page.OnSubmit();
  }
}
