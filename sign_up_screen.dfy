/** The stand-alone sign-up screen: five required fields, then the password checks. */
module SignUp {
  import opened Wrappers
  import opened Forms
  import Auth

  predicate AllFilled(email: string, password: string, confirmPassword: string, username: string, fullName: string) {
    email != "" && password != "" && confirmPassword != "" && username != "" && fullName != ""
  }

  /** `handleSignUp`'s checks, first failure wins. */
  function Check(email: string, password: string, confirmPassword: string, username: string, fullName: string): (r: Option<FormError>)
    ensures r == Some(MissingFields) <==> !AllFilled(email, password, confirmPassword, username, fullName)
    ensures r == Some(PasswordMismatch) <==>
      AllFilled(email, password, confirmPassword, username, fullName) && password != confirmPassword
    ensures r == Some(PasswordTooShort) <==>
      AllFilled(email, password, confirmPassword, username, fullName) && password == confirmPassword && |password| < MinPasswordLength
    ensures r == None <==>
      AllFilled(email, password, confirmPassword, username, fullName) && password == confirmPassword && |password| >= MinPasswordLength
  {
    if !AllFilled(email, password, confirmPassword, username, fullName) then Some(MissingFields)
    else if password != confirmPassword then Some(PasswordMismatch)
    else if |password| < MinPasswordLength then Some(PasswordTooShort)
    else None
  }

  /** A matching six-character password is accepted. */
  lemma SixCharactersSuffice(email: string, username: string, fullName: string)
    requires email != "" && username != "" && fullName != ""
    ensures Check(email, "abcdef", "abcdef", username, fullName) == None
    ensures Check(email, "abcde", "abcde", username, fullName) == Some(PasswordTooShort)
  {
  }

  /**
   * The screen and the component agree except on the two extra required
   * fields: the screen accepts exactly what the component accepts with the
   * confirmation and the full name filled in.
   */
  lemma AgreesWithComponent(email: string, password: string, confirmPassword: string, username: string, fullName: string)
    ensures Check(email, password, confirmPassword, username, fullName) == None <==>
      Auth.SignUpCheck(email, password, confirmPassword, username) == None && confirmPassword != "" && fullName != ""
  {
  }

  class SignUpScreen {
    var email: string
    var password: string
    var confirmPassword: string
    var username: string
    var fullName: string
    /** The parent's authenticated flag, set through `setIsAuthenticated`. */
    var isAuthenticated: bool

    constructor ()
      ensures email == "" && password == "" && confirmPassword == "" && username == "" && fullName == ""
      ensures !isAuthenticated
    {
      email, password, confirmPassword, username, fullName := "", "", "", "", "";
      isAuthenticated := false;
    }

    /** The user is signed in exactly when every check passes; otherwise the first failure is reported. */
    method HandleSignUp() returns (alert: Option<Alert>)
      modifies this`isAuthenticated
      ensures var check := Check(email, password, confirmPassword, username, fullName);
        && (check == None ==> isAuthenticated && alert == None)
        && (check.Some? ==> isAuthenticated == old(isAuthenticated) && alert == Some(check.value.ErrorAlert()))
    {
      var check := Check(email, password, confirmPassword, username, fullName);
      if check.Some? {
        return Some(check.value.ErrorAlert());
      }
      isAuthenticated := true;
      alert := None;
    }
  }
}
