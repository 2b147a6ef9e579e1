/**
 * The sign-in / sign-up component: the guard chains that decide whether the
 * backend is called, and the loading flag around that call.
 */
module Auth {
  import opened Wrappers
  import opened Backend
  import opened Forms

  /** Sign-up checks, first failure wins: three required fields, matching passwords, then length. */
  function SignUpCheck(email: string, password: string, confirmPassword: string, username: string): (r: Option<FormError>)
    ensures r == Some(MissingFields) <==> email == "" || password == "" || username == ""
    ensures r == Some(PasswordMismatch) <==> email != "" && password != "" && username != "" && password != confirmPassword
    ensures r == Some(PasswordTooShort) <==>
      email != "" && password != "" && username != "" && password == confirmPassword && |password| < MinPasswordLength
    ensures r == None <==>
      email != "" && password != "" && username != "" && password == confirmPassword && |password| >= MinPasswordLength
  {
    if email == "" || password == "" || username == "" then Some(MissingFields)
    else if password != confirmPassword then Some(PasswordMismatch)
    else if |password| < MinPasswordLength then Some(PasswordTooShort)
    else None
  }

  /** Sign-in checks: only that email and password are filled in. */
  function SignInCheck(email: string, password: string): (r: Option<FormError>)
    ensures r == None <==> email != "" && password != ""
    ensures r != None ==> r == Some(MissingFields)
  {
    if email == "" || password == "" then Some(MissingFields) else None
  }

  /**
   * The confirmation field is not among the required ones: left empty under a
   * filled-in password it is caught by the mismatch check instead.
   */
  lemma EmptyConfirmationIsAMismatch(email: string, password: string, username: string)
    requires email != "" && password != "" && username != ""
    ensures SignUpCheck(email, password, "", username) == Some(PasswordMismatch)
  {
  }

  /** Everything sign-up accepts, sign-in accepts too. */
  lemma SignUpStricterThanSignIn(email: string, password: string, confirmPassword: string, username: string)
    requires SignUpCheck(email, password, confirmPassword, username) == None
    ensures SignInCheck(email, password) == None
  {
  }

  /** Sign-in has no length check: a one-character password passes it but not sign-up. */
  lemma SignInHasNoLengthCheck(email: string, username: string)
    requires email != "" && username != ""
    ensures SignInCheck(email, "x") == None
    ensures SignUpCheck(email, "x", "x", username) == Some(PasswordTooShort)
  {
  }

  /** A backend call as the component makes it, with the loading flag at that moment. */
  datatype Call =
    | SignUpCall(email: string, password: string, username: string, loadingAtCall: bool)
    | SignInCall(email: string, password: string, loadingAtCall: bool)

  /** How a submission ends. */
  datatype AuthResult =
    | Invalid(error: FormError)
    | Succeeded(user: User)
    | Refused(message: string)
    | Threw

  /** What a submission ends in, given the checks and the backend's reply. */
  function Outcome(check: Option<FormError>, reply: Reply<User>): (r: AuthResult)
    ensures check.Some? ==> r == Invalid(check.value)
    ensures r.Succeeded? <==> check == None && reply.Success?
    ensures r.Threw? <==> check == None && reply.Thrown?
  {
    if check.Some? then Invalid(check.value)
    else match reply
      case Success(u) => Succeeded(u)
      case Failure(e) => Refused(e)
      case Thrown => Threw
  }

  /**
   * The alert a submission shows; a thrown call leaves the handler without
   * one, and sign-in shows none on success.
   */
  function AlertFor(r: AuthResult, signingUp: bool): (a: Option<Alert>)
    ensures a.None? <==> r.Threw? || (r.Succeeded? && !signingUp)
    ensures a.Some? ==> (a.value.title == "Success" <==> r.Succeeded?)
    ensures r.Invalid? ==> a == Some(Alert("Error", r.error.Message()))
    ensures r.Refused? ==> a == Some(Alert("Error", r.message))
  {
    match r
    case Invalid(e) => Some(e.ErrorAlert())
    case Succeeded(_) => if signingUp then Some(Alert("Success", "Account created successfully!")) else None
    case Refused(m) => Some(Alert("Error", m))
    case Threw => None
  }

  class AuthForm {
    var email: string
    var password: string
    var confirmPassword: string
    var username: string
    var loading: bool
    /** The backend calls made so far. */
    var calls: seq<Call>

    constructor ()
      ensures email == "" && password == "" && confirmPassword == "" && username == ""
      ensures !loading && calls == []
    {
      email, password, confirmPassword, username := "", "", "", "";
      loading, calls := false, [];
    }

    /**
     * `handleSignUp`: the backend is called exactly when every check passes,
     * with loading on; loading is off again afterwards unless the call threw.
     * The alert shown is `AlertFor` of the outcome.
     */
    method HandleSignUp(reply: Reply<User>) returns (r: AuthResult, alert: Option<Alert>)
      modifies this`loading, this`calls
      ensures r == Outcome(SignUpCheck(email, password, confirmPassword, username), reply)
      ensures alert == AlertFor(r, true)
      ensures SignUpCheck(email, password, confirmPassword, username).Some? ==>
        calls == old(calls) && loading == old(loading)
      ensures SignUpCheck(email, password, confirmPassword, username) == None ==>
        calls == old(calls) + [SignUpCall(email, password, username, true)] && loading == reply.Thrown?
    {
      var check := SignUpCheck(email, password, confirmPassword, username);
      if check.Some? {
        return Invalid(check.value), Some(check.value.ErrorAlert());
      }
      loading := true;
      calls := calls + [SignUpCall(email, password, username, loading)];
      if reply.Thrown? {
        return Threw, None;
      }
      loading := false;
      if reply.Success? {
        r, alert := Succeeded(reply.value), Some(Alert("Success", "Account created successfully!"));
      } else {
        r, alert := Refused(reply.error), Some(Alert("Error", reply.error));
      }
    }

    /** `handleSignIn`: as sign-up, with the shorter check and no alert on success. */
    method HandleSignIn(reply: Reply<User>) returns (r: AuthResult, alert: Option<Alert>)
      modifies this`loading, this`calls
      ensures r == Outcome(SignInCheck(email, password), reply)
      ensures alert == AlertFor(r, false)
      ensures SignInCheck(email, password).Some? ==> calls == old(calls) && loading == old(loading)
      ensures SignInCheck(email, password) == None ==>
        calls == old(calls) + [SignInCall(email, password, true)] && loading == reply.Thrown?
    {
      var check := SignInCheck(email, password);
      if check.Some? {
        return Invalid(check.value), Some(check.value.ErrorAlert());
      }
      loading := true;
      calls := calls + [SignInCall(email, password, loading)];
      if reply.Thrown? {
        return Threw, None;
      }
      loading := false;
      if reply.Success? {
        r, alert := Succeeded(reply.value), None;
      } else {
        r, alert := Refused(reply.error), Some(Alert("Error", reply.error));
      }
    }
  }
}
