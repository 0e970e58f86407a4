/**
 * The login page's form check and its submit guard.
 */
module LoginPage {
  import opened Wrappers
  import opened FormRules
  import opened EmailPattern
  import opened AuthSlice

  /** What the user typed; both fields start empty. */
  datatype LoginForm = LoginForm(email: string, password: string)

  /** One message per field; "" means the field is fine. */
  datatype LoginErrors = LoginErrors(email: string, password: string)

  /**
   * `validateForm`: both fields are checked every time and the messages are
   * rebuilt from nothing. An empty field is reported as required; a filled
   * email with no `\S+@\S+\.\S+` stretch is invalid; a filled password
   * shorter than six characters is too short.
   */
  method ValidateLoginForm(form: LoginForm) returns (valid: bool, errors: LoginErrors)
    ensures errors.email == EmailRequired <==> form.email == ""
    ensures errors.email == EmailInvalid <==> form.email != "" && !EmailLike(form.email)
    ensures errors.email == "" <==> form.email != "" && EmailLike(form.email)
    ensures errors.password == PasswordRequired <==> form.password == ""
    ensures errors.password == PasswordTooShort <==> 0 < |form.password| < MinPasswordLength
    ensures errors.password == "" <==> |form.password| >= MinPasswordLength
    ensures valid <==> errors.email == "" && errors.password == ""
  {
    valid := true;
    errors := LoginErrors("", "");

    if form.email == "" {
      errors := errors.(email := EmailRequired);
      valid := false;
    } else {
      var matches := ContainsEmailPattern(form.email);
      if !matches {
        errors := errors.(email := EmailInvalid);
        valid := false;
      }
    }

    if form.password == "" {
      errors := errors.(password := PasswordRequired);
      valid := false;
    } else if |form.password| < MinPasswordLength {
      errors := errors.(password := PasswordTooShort);
      valid := false;
    }
  }

  /**
   * `handleSubmit`: the login request goes out, carrying exactly the form,
   * only when the form is valid; its first effect on the store is
   * `login.pending`. An invalid form leaves the store alone. The returned
   * value is the request sent, if any.
   */
  method HandleSubmit(store: AuthStore, form: LoginForm) returns (sent: Option<LoginForm>, errors: LoginErrors)
    modifies store
    ensures sent.Some? <==> errors.email == "" && errors.password == ""
    ensures sent.Some? <==> form.email != "" && EmailLike(form.email) && |form.password| >= MinPasswordLength
    ensures sent.Some? ==> sent.value == form && store.State() == old(store.State()).(loading := true, error := None)
    ensures sent.None? ==> store.State() == old(store.State())
  {
    var valid;
    valid, errors := ValidateLoginForm(form);
    if valid {
      store.LoginPending();
      sent := Some(form);
    } else {
      sent := None;
    }
  }
}
