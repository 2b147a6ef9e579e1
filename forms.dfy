/** What the form screens share: the alert dialog and the validation errors of the account forms. */
module Forms {

  /** An alert dialog shown to the user. */
  datatype Alert = Alert(title: string, message: string)

  /** The button pressed on a confirmation dialog. */
  datatype Choice = Confirm | Cancel

  /** The shortest password the sign-up forms accept. */
  const MinPasswordLength := 6

  /** Why an account form refuses to submit, in the order the forms check. */
  datatype FormError = MissingFields | PasswordMismatch | PasswordTooShort {
    function Message(): string {
      match this
      case MissingFields => "Please fill in all fields"
      case PasswordMismatch => "Passwords do not match"
      case PasswordTooShort => "Password must be at least 6 characters"
    }

    function ErrorAlert(): Alert {
      Alert("Error", Message())
    }
  }
}
