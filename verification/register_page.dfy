/**
 * The registration page's form check and the request it builds on submit.
 */
module RegisterPage {
  import opened Wrappers
  import opened FormRules
  import opened EmailPattern

  const NameRequired: string := "Name is required"
  const ConfirmRequired: string := "Please confirm your password"
  const PasswordsDiffer: string := "Passwords do not match"

  /** What the user typed; every field starts empty. */
  datatype RegisterForm = RegisterForm(name: string, email: string, password: string, confirmPassword: string)

  /** One message per field; "" means the field is fine. */
  datatype RegisterErrors = RegisterErrors(name: string, email: string, password: string, confirmPassword: string)

  /** The registration request: the form without its confirmation field. */
  datatype RegisterData = RegisterData(name: string, email: string, password: string)

  /**
   * `validateForm`: all four checks run every time. The name and the
   * confirmation are required; email and password follow the same rules as
   * on the login page; a filled confirmation must equal the password.
   */
  method ValidateRegisterForm(form: RegisterForm) returns (valid: bool, errors: RegisterErrors)
    ensures errors.name == NameRequired <==> form.name == ""
    ensures errors.name == "" <==> form.name != ""
    ensures errors.email == EmailRequired <==> form.email == ""
    ensures errors.email == EmailInvalid <==> form.email != "" && !EmailLike(form.email)
    ensures errors.email == "" <==> form.email != "" && EmailLike(form.email)
    ensures errors.password == PasswordRequired <==> form.password == ""
    ensures errors.password == PasswordTooShort <==> 0 < |form.password| < MinPasswordLength
    ensures errors.password == "" <==> |form.password| >= MinPasswordLength
    ensures errors.confirmPassword == ConfirmRequired <==> form.confirmPassword == ""
    ensures errors.confirmPassword == PasswordsDiffer <==> form.confirmPassword != "" && form.confirmPassword != form.password
    ensures errors.confirmPassword == "" <==> form.confirmPassword != "" && form.confirmPassword == form.password
    ensures valid <==> errors == RegisterErrors("", "", "", "")
  {
    valid := true;
    errors := RegisterErrors("", "", "", "");

    if form.name == "" {
      errors := errors.(name := NameRequired);
      valid := false;
    }

    if form.email == "" {
      errors := errors.(email := EmailRequired);
      valid := false;
    } else {
      var matches := ContainsEmailPattern(form.email);
      if !matches {
        errors := errors.(email := EmailInvalid);
        valid := false;
      }
    }

    if form.password == "" {
      errors := errors.(password := PasswordRequired);
      valid := false;
    } else if |form.password| < MinPasswordLength {
      errors := errors.(password := PasswordTooShort);
      valid := false;
    }

    if form.confirmPassword == "" {
      errors := errors.(confirmPassword := ConfirmRequired);
      valid := false;
    } else if form.confirmPassword != form.password {
      errors := errors.(confirmPassword := PasswordsDiffer);
      valid := false;
    }
  }

  /** The destructuring that drops `confirmPassword` and keeps the rest. */
  function RegisterPayload(form: RegisterForm): (d: RegisterData)
    ensures RegisterForm(d.name, d.email, d.password, form.confirmPassword) == form
  {
    RegisterData(form.name, form.email, form.password)
  }

  /**
   * `handleSubmit`: a request is built only from a valid form, and then its
   * password is one the user typed twice.
   */
  method HandleSubmit(form: RegisterForm) returns (request: Option<RegisterData>)
    ensures request.Some? <==>
      && form.name != "" && form.email != "" && EmailLike(form.email)
      && |form.password| >= MinPasswordLength && form.confirmPassword == form.password
    ensures request.Some? ==> request.value == RegisterPayload(form) && request.value.password == form.confirmPassword
  {
    var valid, _ := ValidateRegisterForm(form);
    if valid {
      request := Some(RegisterPayload(form));
    } else {
      request := None;
    }
  }
}
