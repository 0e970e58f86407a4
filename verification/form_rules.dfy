/**
 * The messages and limits shared by the login and registration forms.
 */
module FormRules {
  const EmailRequired: string := "Email is required"
  const EmailInvalid: string := "Email is invalid"
  const PasswordRequired: string := "Password is required"
  const PasswordTooShort: string := "Password must be at least 6 characters"

  /** The shortest password either form accepts. */
  const MinPasswordLength: nat := 6
}
